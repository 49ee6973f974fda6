/** The PING/PONG keep-alive state of each connection (src/lifecycle/ConnectionHealthMonitor.cpp),
    in the versions that take the time as an argument. */
module Health {
  import opened Sealing
  import opened Wire
  import opened Modes

  datatype HealthState = HealthState(
    lastActivity: int, waitingForPong: bool, lastPingSentAt: int, lastPongReceivedAt: int, expectedPongToken: string)

  type HealthMap = map<int, HealthState>

  function PingToken(fd: int, now: int): string { SERVER_NAME + "-" + Decimal(fd) + "-" + Decimal(now) }

  function PingLine(token: string): Line { Line(SERVER_NAME, "PING", [], Some(token)) }

  function StateOf(m: HealthMap, fd: int, now: int): HealthState {
    if fd in m then m[fd] else HealthState(now, false, 0, 0, "")
  }

  predicate TimedOut(m: HealthMap, timeout: int, fd: int, now: int) {
    fd in m && m[fd].waitingForPong && now - m[fd].lastPingSentAt > timeout
  }

  // ----- Operations -------------------------------------------------------------------------

  datatype Op =
    | Activity(fd: int, now: int)
    | Ping(fd: int, now: int)
    | PongReceived(fd: int, token: string, now: int)
    | Removed(fd: int)

  function Step(m: HealthMap, op: Op): HealthMap {
    match op
    case Activity(fd, now) => m[fd := StateOf(m, fd, now).(lastActivity := now)]
    case Ping(fd, now) =>
      m[fd := StateOf(m, fd, now).(lastActivity := now, waitingForPong := true, lastPingSentAt := now,
                                   expectedPongToken := PingToken(fd, now))]
    case PongReceived(fd, token, now) =>
      var h := StateOf(m, fd, now).(lastActivity := now);
      m[fd := if h.waitingForPong && token == h.expectedPongToken
              then h.(waitingForPong := false, lastPongReceivedAt := now, expectedPongToken := "") else h]
    case Removed(fd) => m - {fd}
  }

  function Run(ops: seq<Op>): HealthMap {
    if ops == [] then map[] else Step(Run(ops[..|ops| - 1]), ops[|ops| - 1])
  }

  class ConnectionHealthMonitor {
    const timeoutSeconds: int
    var clients: HealthMap

    constructor (timeoutSeconds: int)
      ensures this.timeoutSeconds == timeoutSeconds && clients == map[]
    {
      this.timeoutSeconds, clients := timeoutSeconds, map[];
    }

    method GetOrCreateState(fd: int, now: int)
      modifies this
      ensures clients == old(clients)[fd := StateOf(old(clients), fd, now)]
    {
      if fd !in clients { clients := clients[fd := HealthState(now, false, 0, 0, "")]; }
    }

    method UpdateActivity(fd: int, now: int)
      modifies this
      ensures clients == Step(old(clients), Activity(fd, now))
    {
      GetOrCreateState(fd, now);
      clients := clients[fd := clients[fd].(lastActivity := now)];
    }

    method GeneratePing(fd: int, now: int) returns (line: Line)
      modifies this
      ensures clients == Step(old(clients), Ping(fd, now)) && line == PingLine(PingToken(fd, now))
    {
      GetOrCreateState(fd, now);
      clients := clients[fd := clients[fd].(lastActivity := now)];
      clients := clients[fd := clients[fd].(waitingForPong := true)];
      clients := clients[fd := clients[fd].(lastPingSentAt := now)];
      clients := clients[fd := clients[fd].(expectedPongToken := PingToken(fd, now))];
      line := PingLine(clients[fd].expectedPongToken);
    }

    method MarkPongReceived(fd: int, token: string, now: int)
      modifies this
      ensures clients == Step(old(clients), PongReceived(fd, token, now))
    {
      GetOrCreateState(fd, now);
      clients := clients[fd := clients[fd].(lastActivity := now)];
      if clients[fd].waitingForPong && token == clients[fd].expectedPongToken {
        var answered := clients[fd].(waitingForPong := false, lastPongReceivedAt := now, expectedPongToken := "");
        clients := clients[fd := answered];
      }
    }

    method RemoveClient(fd: int)
      modifies this
      ensures clients == Step(old(clients), Removed(fd))
    {
      clients := clients - {fd};
    }

    method HasTimedOut(fd: int, now: int) returns (r: bool)
      ensures r <==> TimedOut(clients, timeoutSeconds, fd, now)
    {
      if fd !in clients || !clients[fd].waitingForPong { return false; }
      return now - clients[fd].lastPingSentAt > timeoutSeconds;
    }

    /** Exactly the timed-out clients, in strictly ascending order. */
    method CollectTimedOutClients(now: int) returns (fds: seq<int>)
      ensures forall f :: f in fds <==> TimedOut(clients, timeoutSeconds, f, now)
      ensures forall i, j :: 0 <= i < j < |fds| ==> fds[i] < fds[j]
    {
      fds := [];
      var rest := clients.Keys;
      while rest != {}
        invariant rest <= clients.Keys
        invariant forall f, g :: f in clients && f !in rest && g in rest ==> f < g
        invariant forall f :: f in fds <==> f !in rest && TimedOut(clients, timeoutSeconds, f, now)
        invariant forall i :: 0 <= i < |fds| ==> fds[i] in clients && fds[i] !in rest
        invariant forall i, j :: 0 <= i < j < |fds| ==> fds[i] < fds[j]
        decreases |rest|
      {
        ghost var least := Least(rest);
        var f :| f in rest && forall g <- rest :: f <= g;
        var late := HasTimedOut(f, now);
        if late { fds := fds + [f]; }
        rest := rest - {f};
      }
    }
  }

  lemma {:induction false} Least(s: set<int>) returns (least: int)
    requires s != {}
    ensures least in s && forall f <- s :: least <= f
    decreases s
  {
    assert (forall f :: f !in s) ==> s == {};
    least :| least in s;
    if s != {least} {
      var rest := s - {least};
      assert s == rest + {least};
      var other := Least(rest);
      if other < least { least := other; }
    }
  }

  // ----- Tokens identify the ping they belong to --------------------------------------------

  lemma DecimalShape(n: int)
    ensures Decimal(n) != "" && forall i :: 1 <= i < |Decimal(n)| ==> Decimal(n)[i] != '-'
    ensures Decimal(n)[0] == '-' <==> n < 0
  {
  }

  lemma DigitsInjective(m: nat, n: nat)
    requires Digits(m) == Digits(n)
    ensures m == n
  {
    ValueOfDigits(m);
    ValueOfDigits(n);
  }

  lemma DecimalInjective(m: int, n: int)
    requires Decimal(m) == Decimal(n)
    ensures m == n
  {
    DecimalShape(m);
    DecimalShape(n);
    if m < 0 {
      var a, b := Digits(-m), Digits(-n);
      assert a == ("-" + a)[1..] && b == ("-" + b)[1..];
      DigitsInjective(-m, -n);
    } else {
      DigitsInjective(m, n);
    }
  }

  lemma PairSplits(a: string, b: string, x: string, y: string)
    requires a + "-" + b == x + "-" + y
    requires a != "" && x != ""
    requires (forall i :: 1 <= i < |a| ==> a[i] != '-') && (forall i :: 1 <= i < |x| ==> x[i] != '-')
    ensures a == x && b == y
  {
    var s := a + "-" + b;
    assert s[|a|] == '-' && s[|x|] == '-';
    assert forall i :: 0 <= i < |a| ==> s[i] == a[i];
    assert forall i :: 0 <= i < |x| ==> s[i] == x[i];
    assert |a| == |x|;
    assert a == s[..|a|] && x == s[..|x|];
    assert b == s[|a| + 1..] && y == s[|x| + 1..];
  }

  lemma SameHead(head: string, a: string, b: string)
    requires head + a == head + b
    ensures a == b
  {
    assert a == (head + a)[|head|..] && b == (head + b)[|head|..];
  }

  /** Two pings carry the same token only if they are for the same client and second. */
  lemma TokenInjective(fd: int, now: int, fd': int, now': int)
    requires PingToken(fd, now) == PingToken(fd', now')
    ensures fd == fd' && now == now'
  {
    var a, b, x, y := Decimal(fd), Decimal(now), Decimal(fd'), Decimal(now');
    assert a + "-" + b == x + "-" + y by {
      assert PingToken(fd, now) == SERVER_NAME + "-" + (a + "-" + b);
      assert PingToken(fd', now') == SERVER_NAME + "-" + (x + "-" + y);
      SameHead(SERVER_NAME + "-", a + "-" + b, x + "-" + y);
    }
    DecimalShape(fd);
    DecimalShape(fd');
    PairSplits(a, b, x, y);
    DecimalInjective(fd, fd');
    DecimalInjective(now, now');
  }

  // ----- Runs -------------------------------------------------------------------------------

  /** The time of the last ping to `fd` that is still unanswered: no matching PONG and no removal
      came after it. */
  function Unanswered(ops: seq<Op>, fd: int): Option<int> {
    if ops == [] then None
    else
      var before, op := Unanswered(ops[..|ops| - 1], fd), ops[|ops| - 1];
      if op.fd != fd then before
      else
        match op
        case Activity(_, _) => before
        case Ping(_, now) => Some(now)
        case PongReceived(_, token, _) => if before.Some? && token == PingToken(fd, before.value) then None else before
        case Removed(_) => None
  }

  /** Over every run, waiting, the expected token and the ping time are what the history says. */
  lemma {:induction false} WaitingIsUnanswered(ops: seq<Op>, fd: int)
    ensures var m := Run(ops);
            (fd in m && m[fd].waitingForPong <==> Unanswered(ops, fd).Some?) &&
            (fd in m ==> (m[fd].waitingForPong <==> m[fd].expectedPongToken != "")) &&
            (Unanswered(ops, fd).Some? ==>
               m[fd].lastPingSentAt == Unanswered(ops, fd).value &&
               m[fd].expectedPongToken == PingToken(fd, Unanswered(ops, fd).value))
  {
    if ops != [] { WaitingIsUnanswered(ops[..|ops| - 1], fd); }
  }

  /** When something was last heard of `fd` or sent to it, since it was last forgotten. */
  function LastSeen(ops: seq<Op>, fd: int): Option<int> {
    if ops == [] then None
    else
      var op := ops[|ops| - 1];
      if op.fd != fd then LastSeen(ops[..|ops| - 1], fd) else if op.Removed? then None else Some(op.now)
  }

  /** The monitor knows exactly the clients it has heard of, and when. */
  lemma {:induction false} ActivityIsLastSeen(ops: seq<Op>, fd: int)
    ensures fd in Run(ops) <==> LastSeen(ops, fd).Some?
    ensures fd in Run(ops) ==> Run(ops)[fd].lastActivity == LastSeen(ops, fd).value
  {
    if ops != [] { ActivityIsLastSeen(ops[..|ops| - 1], fd); }
  }

  /** When the last pending ping of `fd` was answered, since it was last forgotten. */
  function LastAnswer(ops: seq<Op>, fd: int): int {
    if ops == [] then 0
    else
      var front, op := ops[..|ops| - 1], ops[|ops| - 1];
      if op == Removed(fd) then 0
      else if op.PongReceived? && op.fd == fd && Unanswered(front, fd).Some? && Unanswered(ops, fd).None? then op.now
      else LastAnswer(front, fd)
  }

  lemma {:induction false} AnswerIsLast(ops: seq<Op>, fd: int)
    ensures if fd in Run(ops) then Run(ops)[fd].lastPongReceivedAt == LastAnswer(ops, fd) else LastAnswer(ops, fd) == 0
  {
    if ops != [] {
      AnswerIsLast(ops[..|ops| - 1], fd);
      WaitingIsUnanswered(ops[..|ops| - 1], fd);
      WaitingIsUnanswered(ops, fd);
    }
  }

  /** The PING as it is sent: the token names the server, the descriptor and the second. */
  lemma {:induction false} PingBytes(fd: int, now: int, token: string)
    ensures PingToken(fd, now) == "irc.local-" + Decimal(fd) + "-" + Decimal(now)
    ensures Render(PingLine(token)) == ":irc.local " + ("PING :" + token) + "\r\n"
  {
    assert SERVER_NAME + "-" == "irc.local-";
    var l := PingLine(token);
    assert Tail(l) == " :" + token by { assert "" + (" :" + token) == " :" + token; }
    assert "PING" + (" :" + token) == "PING :" + token;
    assert ":" + SERVER_NAME + " " == ":irc.local ";
    Regrouped(":" + SERVER_NAME + " ", "PING", Tail(l));
  }

  /** A client is timed out exactly when more than the timeout has passed since its unanswered
      ping, so it stays timed out until that ping is answered, repeated or the client removed,
      and pinging again in time keeps it from ever being timed out. */
  lemma TimedOutIff(ops: seq<Op>, timeout: int, fd: int, now: int)
    ensures TimedOut(Run(ops), timeout, fd, now) <==>
            Unanswered(ops, fd).Some? && now - Unanswered(ops, fd).value > timeout
  {
    WaitingIsUnanswered(ops, fd);
  }

  /** An operation that leaves the ping of `fd` at time `sent` pending: anything but another ping,
      a removal or the PONG with this very token. A PONG answering any other ping is harmless. */
  predicate LeavesPending(op: Op, fd: int, sent: int) {
    op.fd == fd ==> op.Activity? || (op.PongReceived? && op.token != PingToken(fd, sent))
  }

  lemma {:induction false} PendingStep(ops: seq<Op>, fd: int, sent: int)
    requires ops != [] && LeavesPending(ops[|ops| - 1], fd, sent)
    requires Unanswered(ops[..|ops| - 1], fd) == Some(sent)
    ensures Unanswered(ops, fd) == Some(sent)
  {
  }

  lemma {:induction false} PendingPersists(ops: seq<Op>, later: seq<Op>, fd: int, sent: int)
    requires forall op <- later :: LeavesPending(op, fd, sent)
    ensures Unanswered(ops + [Ping(fd, sent)] + later, fd) == Some(sent)
  {
    var all := ops + [Ping(fd, sent)] + later;
    if later == [] {
      assert all[|all| - 1] == Ping(fd, sent);
    } else {
      var front, op := later[..|later| - 1], later[|later| - 1];
      assert all[..|all| - 1] == ops + [Ping(fd, sent)] + front && all[|all| - 1] == op;
      assert op in later;
      PendingPersists(ops, front, fd, sent);
      PendingStep(all, fd, sent);
    }
  }

  /** The answer to any other ping leaves this one pending. */
  lemma OtherAnswerLeavesPending(fd: int, sent: int, f: int, t: int, now: int)
    requires f != fd || t != sent
    ensures LeavesPending(PongReceived(fd, PingToken(f, t), now), fd, sent)
  {
    if PingToken(f, t) == PingToken(fd, sent) { TokenInjective(f, t, fd, sent); }
  }

  /** An unanswered ping fires exactly when its time is up, whatever else happens: activity, PONGs
      with any other text, and everything about other clients do not stop it. */
  lemma UnansweredFires(ops: seq<Op>, later: seq<Op>, timeout: int, fd: int, sent: int, now: int)
    requires forall op <- later :: LeavesPending(op, fd, sent)
    ensures TimedOut(Run(ops + [Ping(fd, sent)] + later), timeout, fd, now) <==> now - sent > timeout
  {
    PendingPersists(ops, later, fd, sent);
    TimedOutIff(ops + [Ping(fd, sent)] + later, timeout, fd, now);
  }

  /** When `fd` was last pinged. */
  function LastPing(ops: seq<Op>, fd: int): Option<int> {
    if ops == [] then None
    else
      var op := ops[|ops| - 1];
      if op.Ping? && op.fd == fd then Some(op.now) else LastPing(ops[..|ops| - 1], fd)
  }

  lemma {:induction false} UnansweredIsLast(ops: seq<Op>, fd: int)
    ensures Unanswered(ops, fd).Some? ==> LastPing(ops, fd) == Unanswered(ops, fd)
  {
    if ops != [] { UnansweredIsLast(ops[..|ops| - 1], fd); }
  }

  lemma RecentPingDoesNotFire(ops: seq<Op>, timeout: int, fd: int, now: int)
    requires LastPing(ops, fd).Some? ==> now - LastPing(ops, fd).value <= timeout
    ensures !TimedOut(Run(ops), timeout, fd, now)
  {
    TimedOutIff(ops, timeout, fd, now);
    UnansweredIsLast(ops, fd);
  }

  predicate IsPing(op: Op, fd: int) { op.Ping? && op.fd == fd }

  /** Successive pings of `fd` are at most `timeout` apart. */
  predicate PingedOften(ops: seq<Op>, timeout: int, fd: int) {
    forall j :: 0 <= j < |ops| && IsPing(ops[j], fd) && LastPing(ops[..j], fd).Some? ==>
      ops[j].now - LastPing(ops[..j], fd).value <= timeout
  }

  lemma {:induction false} LastPingStays(ops: seq<Op>, fd: int, n: nat, j: nat)
    requires n <= j <= |ops| && forall i :: n <= i < j ==> !IsPing(ops[i], fd)
    ensures LastPing(ops[..j], fd) == LastPing(ops[..n], fd)
  {
    if n < j {
      assert ops[..j][..j - 1] == ops[..j - 1];
      LastPingStays(ops, fd, n, j - 1);
    }
  }

  /** Pinging again postpones the deadline. In a run whose pings of `fd` follow each other at gaps
      of at most the timeout, `fd` is not timed out at any point of the run up to the time of its
      next ping, nor after the last one until the timeout has passed, although it answers none. */
  lemma {:induction false} FrequentPingsNeverFire(ops: seq<Op>, timeout: int, fd: int, n: nat, j: nat, now: int)
    requires PingedOften(ops, timeout, fd) && n <= j <= |ops| && forall i :: n <= i < j ==> !IsPing(ops[i], fd)
    requires if j < |ops| then IsPing(ops[j], fd) && now <= ops[j].now
             else LastPing(ops, fd).Some? ==> now <= LastPing(ops, fd).value + timeout
    ensures !TimedOut(Run(ops[..n]), timeout, fd, now)
  {
    LastPingStays(ops, fd, n, j);
    assert j == |ops| ==> ops[..j] == ops;
    RecentPingDoesNotFire(ops[..n], timeout, fd, now);
  }

  /** Nobody is waiting for a PONG. */
  ghost predicate Quiet(m: HealthMap) {
    forall key: Key :: Turned(key, m) ==> forall f <- m :: !m[f].waitingForPong
  }

  lemma OpenQuiet(m: HealthMap)
    requires Quiet(m)
    ensures forall f <- m :: !m[f].waitingForPong
  {
    assert Turned(Key, m);
  }

  lemma QuietStep(m: HealthMap, op: Op)
    requires !op.Ping?
    ensures Quiet(m) ==> Quiet(Step(m, op))
  {
    if Quiet(m) { OpenQuiet(m); }
  }

  /** As the server is wired, nothing ever pings: then nobody ever times out. */
  lemma {:induction false} NeverPingedNeverTimesOut(ops: seq<Op>, timeout: int, fd: int, now: int)
    requires forall op <- ops :: !op.Ping?
    ensures !TimedOut(Run(ops), timeout, fd, now)
  {
    NoPingNothingPending(ops, fd);
    TimedOutIff(ops, timeout, fd, now);
  }

  lemma {:induction false} NoPingNothingPending(ops: seq<Op>, fd: int)
    requires forall op <- ops :: !op.Ping?
    ensures Unanswered(ops, fd) == None
  {
    if ops != [] {
      assert ops[|ops| - 1] in ops;
      NoPingNothingPending(ops[..|ops| - 1], fd);
    }
  }
}
