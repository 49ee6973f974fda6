/** One pass over the poll entries, on values: what the environment may do, what a turn of the
    scan does to the connections, and what all turns together amount to (src/a/Server.cpp). */
module Passes {
  import opened Sealing
  import opened Wire
  import opened Framing
  import opened Connections
  import opened Model
  import opened Poll

  /** One round of the environment: what poll, recv, send and accept return and the time. */
  datatype Os = Os(
    revents: int -> set<Bit>, recv: int -> Option<string>, send: (int, nat) -> int,
    accept: set<int> -> Option<(int, string)>, now: int)
  {
    /** recv delivers 1 to 4097 bytes or fails, send takes at most what it is offered, and accept
        returns a descriptor that is not in use and a peer address without blanks, or fails. */
    ghost predicate Lawful(listenFd: int) { forall key: Key :: Turned(key, now) ==> Contract(listenFd) }

    ghost predicate Contract(listenFd: int) {
      (forall f :: recv(f).Some? ==> 1 <= |recv(f).value| <= READ_SIZE) &&
      (forall f, n: nat :: send(f, n) <= n) &&
      (forall used: set<int> :: accept(used).Some? ==>
         var (cs, host) := accept(used).value;
         cs >= 0 && cs != listenFd && cs !in used && SpaceFree(host) && NoNewline(host))
    }
  }

  lemma OpenLawful(os: Os, listenFd: int)
    requires os.Lawful(listenFd)
    ensures os.Contract(listenFd)
  {
    assert Turned(Key, os.now);
  }

  // ----- One connection ---------------------------------------------------------------------

  predicate Broken(rev: set<Bit>) { POLLERR in rev || POLLHUP in rev || POLLNVAL in rev }

  /** A read that its connection survives: it delivers bytes, which neither make the first line
      too long nor complete a QUIT. */
  predicate Readable(buffer: string, chunk: Option<string>) {
    chunk.Some? && !TooLong(buffer + chunk.value) && !Quits(buffer + chunk.value)
  }

  ghost predicate SendFails(os: Os, fd: int) { exists n: nat :: n > 0 && os.send(fd, n) <= 0 }

  /** The causes for which a client with events is dropped. */
  ghost predicate Dismissed(buffer: string, fd: int, rev: set<Bit>, os: Os) {
    Broken(rev) || (POLLIN in rev && !Readable(buffer, os.recv(fd))) || (POLLOUT in rev && SendFails(os, fd))
  }

  lemma {:induction false} PopKeepsResidue(v: View)
    requires Cut(v.recv) < |v.recv|
    ensures Residue(Popped(v).recv) == Residue(v.recv)
    ensures Quits(v.recv) <==> IsQuit(FirstOf(v)) || Quits(Popped(v).recv)
  {
    FirstLine(v.recv);
    QuitsFirst(FirstOf(v), Lines(Popped(v).recv), Lines(v.recv));
  }

  lemma {:induction false} QuitsFirst(first: string, rest: seq<string>, all: seq<string>)
    requires all == [first] + rest
    ensures (exists line <- all :: IsQuit(line)) <==> IsQuit(first) || exists line <- rest :: IsQuit(line)
  {
    assert first == all[0];
    assert forall line :: line in all <==> line == first || line in rest;
  }

  predicate IsQuit(line: string) { VerbOf(Parse(line).command).QUIT? }

  /** Some complete line in the buffer is a QUIT. */
  predicate Quits(buffer: string) { exists line <- Lines(buffer) :: IsQuit(line) }

  /** One line popped; the socket's side of the connection untouched. */
  predicate Progress(v: View, w: View)
    requires Cut(v.recv) < |v.recv|
  {
    w.recv == Popped(v).recv && w.received == v.received && w.sent == v.sent && v.send <= w.send
  }

  /** At most more output waits: the connection was neither read nor written. */
  predicate Undisturbed(v: View, w: View) {
    w.recv == v.recv && w.received == v.received && w.popped == v.popped && w.sent == v.sent && v.send <= w.send
  }

  /** One send of all the pending bytes, which includes those pending before: it took some, or
      there were none. */
  ghost predicate Flushed(v: View, w: View, fd: int, os: Os) {
    v.sent <= w.sent &&
    exists n: nat :: |v.send| <= n && |w.sent| - |v.sent| == Taken(os, fd, n) && (n > 0 ==> Taken(os, fd, n) > 0)
  }

  function Taken(os: Os, fd: int, n: nat): int { if n == 0 then 0 else os.send(fd, n) }

  ghost predicate Sent(v: View, w: View, fd: int, rev: set<Bit>, os: Os) {
    if POLLOUT in rev then Flushed(v, w, fd, os) else w.sent == v.sent
  }

  lemma {:induction false} WrittenFlushed(v: View, fd: int, os: Os)
    requires os.send(fd, |v.send|) <= |v.send|
    ensures var taken := os.send(fd, |v.send|);
            if v.send == "" || taken > 0 then Flushed(v, Written(v, taken), fd, os) else SendFails(os, fd)
  {
    assert |Written(v, os.send(fd, |v.send|)).sent| - |v.sent| ==
           if os.send(fd, |v.send|) <= 0 then 0 else os.send(fd, |v.send|);
    assert Taken(os, fd, |v.send|) == if v.send == "" then 0 else os.send(fd, |v.send|);
  }

  lemma {:induction false} ReadAndFlushed(v: View, u: View, w: View, fd: int, rev: set<Bit>, os: Os)
    requires !Broken(rev) && u.sent == v.sent && v.send <= u.send && w.received == u.received
    requires if POLLIN in rev then Readable(v.recv, os.recv(fd)) && u.received == v.received + os.recv(fd).value
             else u.received == v.received
    requires Sent(u, w, fd, rev, os)
    ensures Served(v, w, fd, rev, os)
  {
    if POLLOUT in rev {
      var n: nat :| |u.send| <= n && |w.sent| - |u.sent| == Taken(os, fd, n) && (n > 0 ==> Taken(os, fd, n) > 0);
      assert |v.send| <= n && |w.sent| - |v.sent| == Taken(os, fd, n);
    }
  }

  /** A connection that survived its events has taken in what the one recv delivered and has been
      flushed once; without the event, nothing was read or sent. */
  ghost predicate Served(v: View, w: View, fd: int, rev: set<Bit>, os: Os) {
    !Broken(rev) &&
    (if POLLIN in rev then Readable(v.recv, os.recv(fd)) && w.received == v.received + os.recv(fd).value
     else w.received == v.received) &&
    Sent(v, w, fd, rev, os)
  }

  /** What a pass does to the client of an entry. Without events, nothing; with events it is served,
      or it is gone and there was a cause. */
  ghost predicate Outcome(before: Conns, after: Conns, fd: int, rev: set<Bit>, os: Os) {
    fd in before &&
    if rev == {} then fd in after && Undisturbed(before[fd], after[fd])
    else if fd in after then Served(before[fd], after[fd], fd, rev, os)
    else Dismissed(before[fd].recv, fd, rev, os)
  }

  /** One pass of the event loop: each client by the events reported for it, and nobody is new but
      the client accept returned, if the listening socket had one, with whom nothing has been
      exchanged yet. */
  ghost predicate Passed(before: Conns, after: Conns, listenFd: int, os: Os) {
    (forall f <- before :: Outcome(before, after, f, os.revents(f), os)) &&
    (forall f <- after :: f !in before ==> Undisturbed(NEW, after[f])) &&
    forall f :: f in after && f !in before <==>
      POLLIN in os.revents(listenFd) && os.accept(before.Keys).Some? && os.accept(before.Keys).value.0 == f
  }

  // ----- The other connections --------------------------------------------------------------

  /** Every connection but that of `fd` is still there, undisturbed. */
  ghost predicate Calm(before: Conns, after: Conns, fd: int) {
    forall key: Key :: Turned(key, fd) ==>
      forall f <- before :: f != fd ==> f in after && Undisturbed(before[f], after[f])
  }

  lemma {:induction false} CalmPut(conns: Conns, fd: int, v: View)
    ensures Calm(conns, conns[fd := v], fd)
  {
  }

  lemma {:induction false} CalmSame(conns: Conns, fd: int)
    ensures Calm(conns, conns, fd)
  {
  }

  lemma {:induction false} CalmQueue(conns: Conns, outs: seq<Out>, fd: int)
    ensures Calm(conns, Queue(conns, outs), fd)
    ensures fd in conns ==> Undisturbed(conns[fd], Queue(conns, outs)[fd])
  {
  }

  lemma {:induction false} CalmDrop(a: Conns, b: Conns, fd: int)
    requires Calm(a, b, fd)
    ensures Calm(a, b - {fd}, fd)
  {
    assert Turned(Key, fd);
  }

  lemma {:induction false} CalmThen(a: Conns, b: Conns, c: Conns, fd: int)
    requires Calm(a, b, fd) && Calm(b, c, fd)
    ensures Calm(a, c, fd)
  {
    assert Turned(Key, fd);
    forall f | f in a && f != fd ensures f in c && Undisturbed(a[f], c[f]) {
      assert f in b && Undisturbed(a[f], b[f]) && Undisturbed(b[f], c[f]);
      PrefixThen(a[f].send, b[f].send, c[f].send);
    }
  }

  lemma {:induction false} PrefixThen<T>(a: seq<T>, b: seq<T>, c: seq<T>)
    requires a <= b && b <= c
    ensures a <= c
  {
    assert c[..|a|] == b[..|a|];
  }

  // ----- The scan ---------------------------------------------------------------------------

  /** The descriptors with events, in order. */
  function WithEvents(shape: seq<(int, set<Bit>)>): seq<int> {
    if shape == [] then [] else (if shape[0].1 != {} then [shape[0].0] else []) + WithEvents(shape[1..])
  }

  predicate DistinctFds(shape: seq<(int, set<Bit>)>)
  {
    forall i, j :: 0 <= i < j < |shape| ==> shape[i].0 != shape[j].0
  }

  /** The entry of `fd` was at `i` and is gone; the others are as before. */
  ghost predicate Vanished(before: seq<(int, set<Bit>)>, i: nat, fd: int, after: seq<(int, set<Bit>)>) {
    1 <= i < |before| && before[i].0 == fd && after == Without(before, i)
  }

  /** The client the pass accepts, if the listening socket has a connection to accept. */
  function Newcomer(start: seq<(int, set<Bit>)>, used: set<int>, os: Os): Option<int> {
    if start != [] && POLLIN in start[0].1 && os.accept(used).Some? then Some(os.accept(used).value.0) else None
  }

  /** One turn of the scan, on an entry with or without events. */
  ghost predicate Turn(before: Conns, after: Conns, fd: int, rev: set<Bit>, os: Os) {
    if rev == {} then after == before
    else Outcome(before, after, fd, rev, os) && Calm(before, after, fd) && after.Keys <= before.Keys
  }

  lemma {:induction false} TurnGone(before: Conns, after: Conns, fd: int, rev: set<Bit>, os: Os)
    requires fd in before && rev != {} && after.Keys == before.Keys - {fd}
    requires Calm(before, after, fd) && Dismissed(before[fd].recv, fd, rev, os)
    ensures Turn(before, after, fd, rev, os)
  {
  }

  lemma {:induction false} TurnServed(before: Conns, after: Conns, fd: int, rev: set<Bit>, os: Os)
    requires fd in before && rev != {} && after.Keys == before.Keys
    requires Calm(before, after, fd) && Served(before[fd], after[fd], fd, rev, os)
    ensures Turn(before, after, fd, rev, os)
  {
  }

  /** The clients of `start` before position `j` have had their turn, the later ones have not been
      disturbed, and the only client that is new is the accepted one. */
  ghost predicate Scanned(conns: Conns, now: Conns, start: seq<(int, set<Bit>)>, j: nat, os: Os) {
    var newcomer := Newcomer(start, conns.Keys, os);
    (forall k :: 1 <= k < |start| && k < j ==> Outcome(conns, now, start[k].0, start[k].1, os)) &&
    (forall k :: 1 <= k < |start| && j <= k ==> Kept(conns, now, start[k].0)) &&
    (newcomer.Some? ==> newcomer.value in now && Undisturbed(NEW, now[newcomer.value])) &&
    forall f <- now :: f in conns || newcomer == Some(f)
  }

  ghost predicate Kept(conns: Conns, now: Conns, f: int) { f in conns && f in now && Undisturbed(conns[f], now[f]) }

  function Appended(start: seq<(int, set<Bit>)>, used: set<int>, os: Os): seq<(int, set<Bit>)> {
    var newcomer := Newcomer(start, used, os);
    if newcomer.Some? then [(newcomer.value, {})] else []
  }

  /** The turn of the listening socket. */
  lemma {:induction false} ScanStart(conns: Conns, after: Conns, start: seq<(int, set<Bit>)>, os: Os)
    requires var newcomer := Newcomer(start, conns.Keys, os);
             after == if newcomer.Some? then conns[newcomer.value := NEW] else conns
    requires Newcomer(start, conns.Keys, os).Some? ==> Newcomer(start, conns.Keys, os).value !in conns
    requires forall k :: 1 <= k < |start| ==> start[k].0 in conns
    ensures Scanned(conns, after, start, 1, os)
  {
  }

  /** Nobody is new but the accepted client. */
  lemma {:induction false} NewcomerOnly(conns: Conns, now: Conns, start: seq<(int, set<Bit>)>, os: Os, listenFd: int)
    requires Scanned(conns, now, start, |start|, os) && os.Lawful(listenFd)
    ensures forall f :: f in now && f !in conns <==> Newcomer(start, conns.Keys, os) == Some(f)
    ensures forall f <- now :: f !in conns ==> Undisturbed(NEW, now[f])
  {
    OpenLawful(os, listenFd);
  }

  lemma {:induction false} ServedLater(v: View, u: View, w: View, x: View, fd: int, rev: set<Bit>, os: Os)
    requires Undisturbed(v, u) && Served(u, w, fd, rev, os) && Undisturbed(w, x)
    ensures Served(v, x, fd, rev, os)
  {
    if POLLOUT in rev {
      var n: nat :| |u.send| <= n && |w.sent| - |u.sent| == Taken(os, fd, n) && (n > 0 ==> Taken(os, fd, n) > 0);
      assert |v.send| <= n && |x.sent| - |v.sent| == Taken(os, fd, n);
    }
  }

  /** The turn of entry `j` completes the entries up to it. */
  lemma {:induction false} ScanTurn(
    conns: Conns, before: Conns, after: Conns, start: seq<(int, set<Bit>)>, j: nat, os: Os)
    requires Scanned(conns, before, start, j, os) && DistinctFds(start) && 1 <= j
    requires Newcomer(start, conns.Keys, os).Some? ==> Newcomer(start, conns.Keys, os).value !in conns
    requires if j < |start| then Turn(before, after, start[j].0, start[j].1, os) else after == before
    ensures Scanned(conns, after, start, j + 1, os)
  {
    if j >= |start| { return; }
    var fd, rev := start[j].0, start[j].1;
    assert Kept(conns, before, fd);
    if rev != {} {
      assert Turned(Key, fd);
      forall k | 1 <= k < |start| && k < j ensures Outcome(conns, after, start[k].0, start[k].1, os) {
        OutcomeStays(conns, before, after, start[k].0, start[k].1, os);
      }
      forall k | 1 <= k < |start| && j < k ensures Kept(conns, after, start[k].0) {
        var f := start[k].0;
        assert Kept(conns, before, f);
        PrefixThen(conns[f].send, before[f].send, after[f].send);
      }
      var newcomer := Newcomer(start, conns.Keys, os);
      if newcomer.Some? {
        assert newcomer.value in before && newcomer.value != fd;
        PrefixThen(NEW.send, before[newcomer.value].send, after[newcomer.value].send);
      }
      if fd in after { ServedLater(conns[fd], before[fd], after[fd], after[fd], fd, rev, os); }
    }
  }

  lemma {:induction false} OutcomeStays(conns: Conns, before: Conns, after: Conns, f: int, rev: set<Bit>, os: Os)
    requires Outcome(conns, before, f, rev, os) && after.Keys <= before.Keys
    requires f in before ==> f in after && Undisturbed(before[f], after[f])
    ensures Outcome(conns, after, f, rev, os)
  {
    if f in before {
      if rev == {} {
        PrefixThen(conns[f].send, before[f].send, after[f].send);
      } else {
        ServedLater(conns[f], conns[f], before[f], after[f], f, rev, os);
      }
    }
  }

  lemma SameEntry(shape: seq<(int, set<Bit>)>, i: nat, at: nat, fd: int, after: seq<(int, set<Bit>)>)
    requires DistinctFds(shape) && i < |shape| && shape[i].0 == fd && Vanished(shape, at, fd, after)
    ensures after == Without(shape, i)
  {
    assert i == at;
  }

  lemma {:induction false} WithEventsMore(shape: seq<(int, set<Bit>)>, e: (int, set<Bit>))
    ensures WithEvents(shape + [e]) == WithEvents(shape) + if e.1 != {} then [e.0] else []
  {
    if shape == [] {
      assert (shape + [e])[1..] == [];
    } else {
      assert (shape + [e])[1..] == shape[1..] + [e];
      WithEventsMore(shape[1..], e);
    }
  }

  /** What one turn does: `tail` holds the entries still to visit. */
  ghost predicate Stepped(before: Conns, after: Conns, tail: seq<(int, set<Bit>)>, tail': seq<(int, set<Bit>)>,
                          served: seq<int>, served': seq<int>, first: bool, os: Os)
  {
    forall key: Key :: Turned(key, tail) && tail != [] ==>
      served' == served + (if tail[0].1 != {} then [tail[0].0] else []) &&
      if first then
        var newcomer := Newcomer(tail, before.Keys, os);
        after == (if newcomer.Some? then before[newcomer.value := NEW] else before) &&
        tail' == tail[1..] + Appended(tail, before.Keys, os)
      else tail' == tail[1..] && Turn(before, after, tail[0].0, tail[0].1, os)
  }

  lemma {:induction false} SteppedQuiet(conns: Conns, shape: seq<(int, set<Bit>)>, i: nat, served: seq<int>, os: Os)
    requires i < |shape| && shape[i].1 == {}
    ensures Stepped(conns, conns, shape[i..], shape[i + 1..], served, served, i == 0, os)
  {
    assert shape[i..][0] == shape[i] && shape[i..][1..] == shape[i + 1..];
    assert shape[i + 1..] + [] == shape[i + 1..];
  }

  lemma {:induction false} SteppedFirst(before: Conns, after: Conns, shape: seq<(int, set<Bit>)>,
                                        shape': seq<(int, set<Bit>)>, served: seq<int>, served': seq<int>, os: Os)
    requires shape != [] && shape[0].1 != {} && served' == served + [shape[0].0]
    requires var newcomer := Newcomer(shape, before.Keys, os);
             after == if newcomer.Some? then before[newcomer.value := NEW] else before
    requires shape' == shape + Appended(shape, before.Keys, os)
    ensures Stepped(before, after, shape[0..], shape'[1..], served, served', true, os)
  {
    assert shape[0..] == shape && shape'[1..] == shape[1..] + Appended(shape, before.Keys, os);
  }

  lemma {:induction false} SteppedClient(
    before: Conns, after: Conns, shape: seq<(int, set<Bit>)>, shape': seq<(int, set<Bit>)>, i: nat, next: nat,
    removed: bool, served: seq<int>, served': seq<int>, os: Os)
    requires 1 <= i < |shape| && shape[i].1 != {} && served' == served + [shape[i].0]
    requires next == (if removed then i else i + 1) && shape' == if removed then Without(shape, i) else shape
    requires Turn(before, after, shape[i].0, shape[i].1, os)
    ensures next <= |shape'| && Stepped(before, after, shape[i..], shape'[next..], served, served', false, os)
  {
    assert shape[i..][0] == shape[i] && shape[i..][1..] == shape[i + 1..] == shape'[next..];
  }

  /** `conns` and `start` are as they were before the pass, and can be scanned. */
  ghost predicate Scannable(conns: Conns, start: seq<(int, set<Bit>)>, os: Os) {
    var newcomer := Newcomer(start, conns.Keys, os);
    start != [] && DistinctFds(start) && (forall k :: 1 <= k < |start| ==> start[k].0 in conns) &&
    (newcomer.Some? ==> newcomer.value !in conns)
  }

  /** The pass after `j` turns. */
  ghost predicate Scanning(conns: Conns, now: Conns, start: seq<(int, set<Bit>)>, tail: seq<(int, set<Bit>)>,
                           served: seq<int>, served': seq<int>, j: nat, os: Os)
  {
    forall key: Key :: Turned(key, tail) ==>
      var all := start + Appended(start, conns.Keys, os);
      Scannable(conns, start, os) && j <= |all| && served' == served + WithEvents(all[..j]) &&
      if j == 0 then now == conns && tail == start else Scanned(conns, now, start, j, os) && tail == all[j..]
  }

  lemma {:induction false} ScanningStart(listenFd: int, p: seq<PollFd>, conns: Conns, served: seq<int>, os: Os)
    requires Wired(listenFd, p, conns) && os.Lawful(listenFd)
    ensures Scanning(conns, conns, Shape(p), Shape(p)[0..], served, served, 0, os)
  {
    OpenWired(listenFd, p, conns);
    OpenLawful(os, listenFd);
    assert served + [] == served;
  }

  lemma {:induction false} ScanningStep(
    conns: Conns, before: Conns, after: Conns, start: seq<(int, set<Bit>)>, tail: seq<(int, set<Bit>)>,
    tail': seq<(int, set<Bit>)>, served: seq<int>, served1: seq<int>, served2: seq<int>, j: nat, os: Os)
    requires Scanning(conns, before, start, tail, served, served1, j, os) && tail != []
    requires Stepped(before, after, tail, tail', served1, served2, j == 0, os)
    ensures Scanning(conns, after, start, tail', served, served2, j + 1, os)
  {
    assert Turned(Key, tail);
    var all := start + Appended(start, conns.Keys, os);
    assert tail[0] == all[j];
    assert all[..j + 1] == all[..j] + [all[j]];
    WithEventsMore(all[..j], all[j]);
    assert tail' == all[j + 1..];
    if j == 0 {
      ScanStart(conns, after, start, os);
    } else {
      ScanTurn(conns, before, after, start, j, os);
    }
  }

  lemma {:induction false} ScanningEnd(
    conns: Conns, now: Conns, start: seq<(int, set<Bit>)>, served: seq<int>, served': seq<int>, j: nat, os: Os)
    requires Scanning(conns, now, start, [], served, served', j, os)
    ensures served' == served + WithEvents(start) && Scanned(conns, now, start, |start|, os)
  {
    var none: seq<(int, set<Bit>)> := [];
    assert Turned(Key, none);
    var more := Appended(start, conns.Keys, os);
    var all := start + more;
    assert j == |all| && all[..j] == all;
    if more != [] {
      assert more == [more[0]];
      WithEventsMore(start, more[0]);
    }
  }
}
