/** What the event loop keeps true about its poll entries, connections and history, on values. */
module Poll {
  import opened Sealing
  import opened Wire
  import opened Framing
  import opened Connections
  import opened Model
  import opened Soundness
  import opened Runs

  datatype Bit = POLLIN | POLLOUT | POLLERR | POLLHUP | POLLNVAL | POLLPRI

  datatype PollFd = PollFd(fd: int, events: set<Bit>, revents: set<Bit>)

  type Conns = map<int, View>

  ghost predicate Watched(p: seq<PollFd>, f: int) { exists i :: 1 <= i < |p| && p[i].fd == f }

  predicate Distinct(p: seq<PollFd>) { forall i, j :: 0 <= i < j < |p| ==> p[i].fd != p[j].fd }

  /** The listening socket comes first; the other entries are the connections, each once, always
      waiting for input and waiting to write exactly while there is something to write. */
  ghost predicate Wiring(listenFd: int, p: seq<PollFd>, conns: Conns) {
    |p| > 0 && p[0].fd == listenFd && Distinct(p) &&
    (forall i :: 1 <= i < |p| ==> p[i].fd in conns && POLLIN in p[i].events &&
                                  (POLLOUT in p[i].events <==> conns[p[i].fd].send != "")) &&
    (forall f <- conns :: conns[f].Ok() && Watched(p, f))
  }

  ghost predicate Wired(listenFd: int, p: seq<PollFd>, conns: Conns) {
    forall key: Key :: Turned(key, p) ==> Wiring(listenFd, p, conns)
  }

  lemma OpenWired(listenFd: int, p: seq<PollFd>, conns: Conns)
    requires Wired(listenFd, p, conns)
    ensures Wiring(listenFd, p, conns)
  {
    assert Turned(Key, p);
  }

  /** Every read has been worked off, except perhaps on `busy`. */
  predicate AllSettled(conns: Conns, busy: set<int>) { forall f <- conns :: f !in busy ==> conns[f].Settled() }

  /** The server state is what the log leads to; the clients are the connections; each connection
      has queued exactly what the log addressed to it and popped exactly what it issued. */
  ghost predicate History(password: string, log: seq<Event>, s: State, conns: Conns) {
    ValidLog(Init(password), log) && s == Exec(Init(password), log) && s.clients.Keys == conns.Keys &&
    forall f <- conns :: conns[f].queued == Addressed(Init(password), log, f) && conns[f].popped == Issued(log, f)
  }

  ghost predicate Logged(password: string, log: seq<Event>, s: State, conns: Conns) {
    forall key: Key :: Turned(key, log) ==> History(password, log, s, conns)
  }

  lemma OpenLogged(password: string, log: seq<Event>, s: State, conns: Conns)
    requires Logged(password, log, s, conns)
    ensures History(password, log, s, conns)
  {
    assert Turned(Key, log);
  }

  lemma InitSound(password: string)
    ensures Sound(Init(password))
  {
  }

  // ----- Poll entries -----------------------------------------------------------------------

  /** What the scan of the entries goes by. */
  function Shape(p: seq<PollFd>): (r: seq<(int, set<Bit>)>)
    ensures |r| == |p|
  {
    seq(|p|, i requires 0 <= i < |p| => (p[i].fd, p[i].revents))
  }

  function Without<T>(s: seq<T>, i: nat): seq<T>
    requires i < |s|
  {
    s[..i] + s[i + 1..]
  }

  lemma WithoutShape(p: seq<PollFd>, i: nat)
    requires i < |p|
    ensures Shape(Without(p, i)) == Without(Shape(p), i)
  {
  }

  lemma WithoutDistinct(p: seq<PollFd>, i: nat)
    requires Distinct(p) && i < |p|
    ensures Distinct(Without(p, i))
  {
    var q := Without(p, i);
    forall a, b | 0 <= a < b < |q| ensures q[a].fd != q[b].fd {
      assert q[a] == p[if a < i then a else a + 1] && q[b] == p[if b < i then b else b + 1];
    }
  }

  lemma WithoutWatched(p: seq<PollFd>, i: nat, f: int)
    requires 1 <= i < |p| && Watched(p, f) && f != p[i].fd
    ensures Watched(Without(p, i), f)
  {
    var j :| 1 <= j < |p| && p[j].fd == f;
    assert Without(p, i)[if j < i then j else j - 1].fd == f;
  }

  lemma WithoutEntry(p: seq<PollFd>, i: nat, j: nat) returns (k: nat)
    requires Distinct(p) && 1 <= i < |p| && 1 <= j < |p| - 1
    ensures 1 <= k < |p| && Without(p, i)[j] == p[k] && p[k].fd != p[i].fd
  {
    k := if j < i then j else j + 1;
    assert k < i ==> p[k].fd != p[i].fd;
    assert i < k ==> p[i].fd != p[k].fd;
  }

  lemma WithoutWired(listenFd: int, p: seq<PollFd>, conns: Conns, i: nat)
    requires Wired(listenFd, p, conns) && 1 <= i < |p|
    ensures Wired(listenFd, Without(p, i), conns - {p[i].fd})
  {
    OpenWired(listenFd, p, conns);
    var q, rest := Without(p, i), conns - {p[i].fd};
    WithoutDistinct(p, i);
    forall f | f in rest ensures Watched(q, f) {
      WithoutWatched(p, i, f);
    }
    forall j | 1 <= j < |q|
      ensures q[j].fd in rest && POLLIN in q[j].events && (POLLOUT in q[j].events <==> rest[q[j].fd].send != "")
    {
      var k := WithoutEntry(p, i, j);
    }
  }

  lemma AddedWired(listenFd: int, p: seq<PollFd>, conns: Conns, f: int, v: View)
    requires Wired(listenFd, p, conns) && f !in conns && f != listenFd && v.Ok() && v.send == ""
    ensures Wired(listenFd, p + [PollFd(f, {POLLIN}, {})], conns[f := v])
  {
    OpenWired(listenFd, p, conns);
    var q := p + [PollFd(f, {POLLIN}, {})];
    forall g | g in conns[f := v] ensures Watched(q, g) {
      if g == f {
        assert q[|p|].fd == f;
      } else {
        assert Watched(p, g);
        var j :| 1 <= j < |p| && p[j].fd == g;
        assert q[j].fd == g;
      }
    }
    forall a | 0 <= a < |p| ensures p[a].fd != f {}
  }

  /** The entry of `f` waits to write exactly when `on`. */
  lemma ToggledWired(listenFd: int, p: seq<PollFd>, conns: Conns, i: nat, v: View, on: bool)
    requires Wired(listenFd, p, conns) && 1 <= i < |p| && v.Ok() && (on <==> v.send != "")
    ensures var e := p[i].events;
            Wired(listenFd, p[i := p[i].(events := if on then e + {POLLOUT} else e - {POLLOUT})], conns[p[i].fd := v])
  {
    OpenWired(listenFd, p, conns);
    var e := p[i].events;
    var q := p[i := p[i].(events := if on then e + {POLLOUT} else e - {POLLOUT})];
    forall f | f in conns ensures Watched(q, f) {
      assert Watched(p, f);
      var j :| 1 <= j < |p| && p[j].fd == f;
      assert q[j].fd == f;
    }
    forall j | 1 <= j < |q| && j != i ensures q[j].fd != p[i].fd {
      assert j < i ==> p[j].fd != p[i].fd;
      assert i < j ==> p[i].fd != p[j].fd;
    }
  }

  lemma WatchedAt(listenFd: int, p: seq<PollFd>, conns: Conns, f: int) returns (i: nat)
    requires Wired(listenFd, p, conns) && f in conns
    ensures 1 <= i < |p| && p[i].fd == f && conns[f].Ok() && Distinct(p)
  {
    OpenWired(listenFd, p, conns);
    assert Watched(p, f);
    i :| 1 <= i < |p| && p[i].fd == f;
  }

  lemma ToggledShape(p: seq<PollFd>, i: nat, e: set<Bit>)
    requires i < |p|
    ensures Shape(p[i := p[i].(events := e)]) == Shape(p)
  {
  }

  /** A change of a connection that keeps its send buffer keeps the wiring. */
  lemma SameSendWired(listenFd: int, p: seq<PollFd>, conns: Conns, f: int, v: View)
    requires Wired(listenFd, p, conns) && f in conns && v.Ok() && (v.send == "" <==> conns[f].send == "")
    ensures Wired(listenFd, p, conns[f := v])
  {
    OpenWired(listenFd, p, conns);
  }

  // ----- Queueing ---------------------------------------------------------------------------

  lemma {:induction false} RenderAllConcat(a: seq<Line>, b: seq<Line>)
    ensures RenderAll(a + b) == RenderAll(a) + RenderAll(b)
  {
    if b == [] {
      assert a + b == a;
    } else {
      var front, last := b[..|b| - 1], b[|b| - 1];
      assert (a + b)[..|a + b| - 1] == a + front;
      RenderAllConcat(a, front);
      Regrouped(RenderAll(a), RenderAll(front), Render(last));
    }
  }

  function Enqueued(v: View, lines: seq<Line>): View {
    v.(queued := v.queued + lines, send := v.send + RenderAll(lines))
  }

  /** Every connection after `outs` have been handed out. */
  function Queue(conns: Conns, outs: seq<Out>): Conns {
    map f | f in conns :: Enqueued(conns[f], ToFd(outs, f))
  }

  lemma QueueNone(conns: Conns)
    ensures Queue(conns, []) == conns
  {
    forall f | f in conns ensures Enqueued(conns[f], ToFd([], f)) == conns[f] {
      assert conns[f].queued + [] == conns[f].queued && conns[f].send + "" == conns[f].send;
    }
  }

  lemma QueueAt(conns: Conns, outs: seq<Out>, o: Out, f: int)
    requires f in conns
    ensures Queue(conns, outs + [o])[f] ==
            if f == o.fd then Buffered(Queue(conns, outs)[f], o.line) else Queue(conns, outs)[f]
  {
    EnqueuedStep(conns[f], ToFd(outs, f), o.line);
    ToFdSnoc(outs, o, f);
  }

  lemma QueueStep(conns: Conns, outs: seq<Out>, o: Out)
    ensures var now, next := Queue(conns, outs), Queue(conns, outs + [o]);
            next == if o.fd in conns then now[o.fd := Buffered(now[o.fd], o.line)] else now
  {
    var now, next := Queue(conns, outs), Queue(conns, outs + [o]);
    forall f | f in conns ensures next[f] == if f == o.fd then Buffered(now[f], o.line) else now[f] {
      QueueAt(conns, outs, o, f);
    }
    assert next.Keys == conns.Keys && now.Keys == conns.Keys;
  }

  lemma ToFdSnoc(outs: seq<Out>, o: Out, f: int)
    ensures ToFd(outs + [o], f) == if o.fd == f then ToFd(outs, f) + [o.line] else ToFd(outs, f)
  {
    assert (outs + [o])[..|outs|] == outs;
    assert ToFd(outs, f) + [] == ToFd(outs, f);
  }

  lemma EnqueuedStep(v: View, lines: seq<Line>, l: Line)
    ensures Enqueued(v, lines + [l]) == Buffered(Enqueued(v, lines), l)
  {
    RenderAllAppend(lines, l);
    assert v.queued + (lines + [l]) == (v.queued + lines) + [l];
    assert v.send + (RenderAll(lines) + Render(l)) == (v.send + RenderAll(lines)) + Render(l);
  }

  // ----- History ----------------------------------------------------------------------------

  /** Accepting a client. */
  lemma ConnectLogged(password: string, log: seq<Event>, s: State, conns: Conns, fd: int, host: string)
    requires Logged(password, log, s, conns) && Enabled(s, Connect(fd, host))
    ensures Logged(password, log + [Connect(fd, host)], Next(s, Connect(fd, host)), conns[fd := NEW])
  {
    OpenLogged(password, log, s, conns);
    var e, init := Connect(fd, host), Init(password);
    forall f ensures Addressed(init, log + [e], f) == (if f == fd then [] else Addressed(init, log, f)) &&
                     Issued(log + [e], f) == if f == fd then [] else Issued(log, f)
    {
      LogAppend(init, log, e, f);
      assert Addressed(init, log, f) + [] == Addressed(init, log, f);
    }
    LogAppend(init, log, e, fd);
  }

  /** Executing a popped line and queueing its replies. */
  lemma CommandLogged(password: string, log: seq<Event>, s: State, conns: Conns, fd: int, line: string,
                      order: seq<int>, conns': Conns)
    requires Logged(password, log, s, conns) && fd in conns
    requires Enabled(s, Command(fd, line, order))
    requires conns'.Keys == conns.Keys
    requires forall f <- conns :: conns'[f].queued == conns[f].queued + ToFd(Outputs(s, Command(fd, line, order)), f)
    requires forall f <- conns :: conns'[f].popped == if f == fd then conns[f].popped + [line] else conns[f].popped
    ensures Logged(password, log + [Command(fd, line, order)], Next(s, Command(fd, line, order)), conns')
  {
    OpenLogged(password, log, s, conns);
    var e, init := Command(fd, line, order), Init(password);
    forall f | f in conns
      ensures conns'[f].queued == Addressed(init, log + [e], f) && conns'[f].popped == Issued(log + [e], f)
    {
      LogAppend(init, log, e, f);
    }
    LogAppend(init, log, e, fd);
    ClientsStay(s, fd, Decide(s, fd, Parse(line)));
  }

  /** Telling the peers and erasing the client. */
  lemma DisconnectLogged(password: string, log: seq<Event>, s: State, conns: Conns, fd: int, reason: string,
                         order: seq<int>, conns': Conns)
    requires Logged(password, log, s, conns) && fd in conns
    requires Enabled(s, Disconnect(fd, reason, order))
    requires conns'.Keys == conns.Keys - {fd}
    requires forall f <- conns' ::
               conns'[f].queued == conns[f].queued + ToFd(Outputs(s, Disconnect(fd, reason, order)), f)
    requires forall f <- conns' :: conns'[f].popped == conns[f].popped
    ensures Logged(password, log + [Disconnect(fd, reason, order)], Next(s, Disconnect(fd, reason, order)), conns')
  {
    OpenLogged(password, log, s, conns);
    var e, init := Disconnect(fd, reason, order), Init(password);
    forall f | f in conns'
      ensures conns'[f].queued == Addressed(init, log + [e], f) && conns'[f].popped == Issued(log + [e], f)
    {
      LogAppend(init, log, e, f);
    }
    LogAppend(init, log, e, fd);
  }

  /** A change that touches neither what a connection queued nor what it popped. */
  lemma SameHistory(password: string, log: seq<Event>, s: State, conns: Conns, f: int, v: View)
    requires Logged(password, log, s, conns) && f in conns
    requires v.queued == conns[f].queued && v.popped == conns[f].popped
    ensures Logged(password, log, s, conns[f := v])
  {
    OpenLogged(password, log, s, conns);
  }

  /** End to end: however the bytes sent to a live client were chunked, what it has received is a
      prefix of a stream that decodes to exactly the messages addressed to it, one line each, in
      order; and what it has had executed are exactly the lines of the bytes it sent. */
  lemma DeliveryEndToEnd(password: string, log: seq<Event>, s: State, conns: Conns, listenFd: int, p: seq<PollFd>,
                         f: int)
    requires Logged(password, log, s, conns) && Wired(listenFd, p, conns) && f in conns
    ensures var v, addressed := conns[f], Addressed(Init(password), log, f);
            Lines(v.sent + v.send) == Bodies(addressed) && Residue(v.sent + v.send) == "" &&
            Issued(log, f) + Lines(v.recv) == Lines(v.received) && Residue(v.recv) == Residue(v.received)
  {
    OpenLogged(password, log, s, conns);
    OpenWired(listenFd, p, conns);
    InitSound(password);
    DeliveryDecodes(Init(password), log, f);
  }
}
