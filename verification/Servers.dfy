/** The event loop (src/a/Server.cpp). System calls are parameters: what accept, recv and send
    return, which events poll reports and what time it is are chosen by the environment. */
module Servers {
  import opened Sealing
  import opened Wire
  import opened Framing
  import opened Connections
  import opened Model
  import opened Runs
  import opened Poll
  import opened Passes
  import opened RunTheorems
  import opened Guarantees
  import opened Health
  import opened ServerStates
  import opened Dispatcher
  import opened Notifier

  class Server {
    const listenFd: int
    const state: ServerState
    const health: ConnectionHealthMonitor
    var pollfds: seq<PollFd>
    var connections: Conns
    ghost var log: seq<Event>   // everything that happened to the server state
    ghost var served: seq<int>  // the poll entries handled so far

    constructor (listenFd: int, password: string)
      ensures Valid() && fresh(state) && fresh(health) && this.listenFd == listenFd
      ensures connections == map[] && log == [] && state.password == password && health.clients == map[]
    {
      this.listenFd := listenFd;
      state := new ServerState(password);
      health := new ConnectionHealthMonitor(30);
      pollfds := [PollFd(listenFd, {POLLIN}, {})];
      connections := map[];
      log, served := [], [];
    }

    /** The invariant of the loop while the input of the clients in `busy` is being worked off:
        poll entries, connections and registered clients are the same set, the health monitor
        knows no others, and the history accounts for every state change and every byte. */
    ghost predicate Ready(busy: set<int>)
      reads this, state, health
    {
      state.Valid() && Wired(listenFd, pollfds, connections) &&
      Logged(state.password, log, state.Abs(), connections) &&
      health.clients.Keys <= connections.Keys && AllSettled(connections, busy)
    }

    ghost predicate Valid()
      reads this, state, health
    {
      Ready({})
    }

    /** Valid and no less quiet than `quiet`, with a history that continues `story`. */
    ghost predicate Steady(quiet: bool, story: seq<Event>)
      reads this, state, health
    {
      forall key: Key :: Turned(key, story) ==> Valid() && (quiet ==> Quiet(health.clients)) && story <= log
    }

    lemma OpenSteady(quiet: bool, story: seq<Event>)
      requires Steady(quiet, story)
      ensures Valid() && (quiet ==> Quiet(health.clients)) && story <= log
    {
      assert Turned(Key, story);
    }

    // ----- Two moments of one server --------------------------------------------------------

    ghost function Now(): (m: Moment)
      reads this, state
    {
      Moment(log, state.Abs(), connections)
    }

    /** A channel without operators that exists in every state in between keeps its modes and has no
        operator. */
    twostate lemma StillFrozen(k: string)
      requires old(Valid()) && Valid() && old(log) <= log
      requires k in old(state.Abs()).channels && old(state.Abs()).channels[k].ops == {}
      requires Persists(old(state.Abs()), log[|old(log)|..], k)
      ensures k in state.Abs().channels && state.Abs().channels[k].ops == {}
      ensures state.Abs().channels[k].modes == old(state.Abs()).channels[k].modes
    {
      FrozenBetween(state.password, old(Now()), Now(), k);
    }

    /** While a limit stands, the channel does not grow beyond it. */
    twostate lemma StillLimited(k: string, limit: int)
      requires old(Valid()) && Valid() && old(log) <= log
      requires limit >= 0 && LimitStands(old(state.Abs()), log[|old(log)|..], k, limit)
      ensures k in old(state.Abs()).channels && k in state.Abs().channels
      ensures |state.Abs().channels[k].members| <= limit ||
              |state.Abs().channels[k].members| <= |old(state.Abs()).channels[k].members|
    {
      LimitBetween(state.password, old(Now()), Now(), k, limit);
    }

    /** A registered client that stayed connected is registered as it was. */
    twostate lemma StillRegistered(f: int)
      requires old(Valid()) && Valid() && old(log) <= log
      requires f in old(state.Abs()).clients && old(state.Abs()).clients[f].registered
      requires StaysConnected(log[|old(log)|..], f)
      ensures f in state.Abs().clients && state.Abs().clients[f].registered
      ensures var c, d := old(state.Abs()).clients[f], state.Abs().clients[f];
              d.username == c.username && d.realname == c.realname && d.host == c.host
    {
      RegisteredBetween(state.password, old(Now()), Now(), f);
    }

    // ----- Poll entries ---------------------------------------------------------------------

    method AddFd(fd: int, events: set<Bit>)
      modifies `pollfds
      ensures pollfds == old(pollfds) + [PollFd(fd, events, {})]
    {
      pollfds := pollfds + [PollFd(fd, events, {})];
    }

    method RemoveFd(fd: int)
      requires Distinct(pollfds)
      modifies `pollfds
      ensures forall i :: 0 <= i < |old(pollfds)| && old(pollfds)[i].fd == fd ==> pollfds == Without(old(pollfds), i)
      ensures (forall i :: 0 <= i < |old(pollfds)| ==> old(pollfds)[i].fd != fd) ==> pollfds == old(pollfds)
    {
      for i := 0 to |pollfds|
        invariant pollfds == old(pollfds)
        invariant forall j :: 0 <= j < i ==> pollfds[j].fd != fd
      {
        if pollfds[i].fd == fd {
          pollfds := pollfds[..i] + pollfds[i + 1..];
          return;
        }
      }
    }

    method SetPollout(fd: int, on: bool)
      requires Distinct(pollfds)
      modifies `pollfds
      ensures forall i :: 0 <= i < |old(pollfds)| && old(pollfds)[i].fd == fd ==>
                var e := old(pollfds)[i].events;
                pollfds == old(pollfds)[i := old(pollfds)[i].(events := if on then e + {POLLOUT} else e - {POLLOUT})]
      ensures (forall i :: 0 <= i < |old(pollfds)| ==> old(pollfds)[i].fd != fd) ==> pollfds == old(pollfds)
    {
      for i := 0 to |pollfds|
        invariant pollfds == old(pollfds)
        invariant forall j :: 0 <= j < i ==> pollfds[j].fd != fd
      {
        if pollfds[i].fd == fd {
          var e := pollfds[i].events;
          pollfds := pollfds[i := pollfds[i].(events := if on then e + {POLLOUT} else e - {POLLOUT})];
          return;
        }
      }
    }

    // ----- Replies --------------------------------------------------------------------------

    method EnqueueOne(o: Out)
      requires Wired(listenFd, pollfds, connections) && o.fd in connections
      modifies `pollfds, `connections
      ensures Wired(listenFd, pollfds, connections) && Shape(pollfds) == old(Shape(pollfds))
      ensures connections == old(connections)[o.fd := Buffered(old(connections)[o.fd], o.line)]
    {
      ghost var conns, p := connections, pollfds;
      ghost var i := WatchedAt(listenFd, p, conns, o.fd);
      BufferedOk(conns[o.fd], o.line);
      connections := connections[o.fd := Buffered(connections[o.fd], o.line)];
      SetPollout(o.fd, true);
      ToggledWired(listenFd, p, conns, i, connections[o.fd], true);
      ToggledShape(p, i, p[i].events + {POLLOUT});
    }

    method EnqueueReplies(replies: seq<Out>)
      requires Wired(listenFd, pollfds, connections)
      modifies `pollfds, `connections
      ensures Wired(listenFd, pollfds, connections) && Shape(pollfds) == old(Shape(pollfds))
      ensures connections == Queue(old(connections), replies)
    {
      ghost var conns := connections;
      QueueNone(conns);
      assert replies[..0] == [];
      for i := 0 to |replies|
        invariant Wired(listenFd, pollfds, connections) && Shape(pollfds) == old(Shape(pollfds))
        invariant connections == Queue(conns, replies[..i])
      {
        QueueStep(conns, replies[..i], replies[i]);
        OneMore(replies, i);
        if replies[i].fd in connections { EnqueueOne(replies[i]); }
      }
      assert replies[..|replies|] == replies;
    }

    // ----- Accept and disconnect ------------------------------------------------------------

    /** `accepted` is the new socket and its peer address, or None when accept failed. The operating
        system hands out a descriptor that is not in use. */
    method AcceptClient(accepted: Option<(int, string)>)
      requires Valid()
      requires accepted.Some? ==>
                 accepted.value.0 >= 0 && accepted.value.0 != listenFd && accepted.value.0 !in connections &&
                 SpaceFree(accepted.value.1) && NoNewline(accepted.value.1)
      modifies `pollfds, `connections, `log, state
      ensures Valid()
      ensures if accepted.None? then
                connections == old(connections) && Shape(pollfds) == old(Shape(pollfds)) && log == old(log)
              else connections == old(connections)[accepted.value.0 := NEW] &&
                   Shape(pollfds) == old(Shape(pollfds)) + [(accepted.value.0, {})] &&
                   log == old(log) + [Connect(accepted.value.0, accepted.value.1)]
    {
      if accepted.None? { return; }
      var (cs, host) := accepted.value;
      ghost var conns, p, s, before := connections, pollfds, state.Abs(), log;
      Arrived(listenFd, p, state.password, before, s, conns, cs, host);
      connections := connections[cs := NEW];
      AddFd(cs, {POLLIN});
      state.AddClient(cs, host);
      log := log + [Connect(cs, host)];
    }

    /** Closes the socket and forgets the client everywhere; `at` is where its entry was. */
    method DisconnectClient(fd: int) returns (ghost at: nat)
      requires state.Valid() && Wired(listenFd, pollfds, connections) && fd != listenFd
      modifies `pollfds, `connections, state, health
      ensures state.Valid() && connections == old(connections) - {fd}
      ensures Wired(listenFd, pollfds, connections)
      ensures state.Abs() == PartState(old(connections), old(state.Abs()), fd)
      ensures health.clients == old(health.clients) - {fd} && (Quiet(old(health.clients)) ==> Quiet(health.clients))
      ensures if fd in old(connections) then Vanished(old(Shape(pollfds)), at, fd, Shape(pollfds))
              else Shape(pollfds) == old(Shape(pollfds))
    {
      ghost var conns, p := connections, pollfds;
      at := 0;
      if fd in connections {
        at := WatchedAt(listenFd, p, conns, fd);
      } else {
        NotWatched(listenFd, p, conns, fd);
      }
      RemoveFd(fd);
      if fd in connections {
        connections := connections - {fd};
        state.RemoveClient(fd);
        WithoutWired(listenFd, p, conns, at);
        WithoutShape(p, at);
      }
      QuietStep(health.clients, Removed(fd));
      health.RemoveClient(fd);
    }

    /** Queues the QUIT notices for the other members of its channels. */
    method TellPeers(fd: int, reason: string) returns (ghost order: seq<int>)
      requires state.Valid() && Wired(listenFd, pollfds, connections)
      modifies `pollfds, `connections
      ensures Wired(listenFd, pollfds, connections) && Shape(pollfds) == old(Shape(pollfds))
      ensures Calm(old(connections), connections, fd)
      ensures Farewell(old(state.Abs()), old(connections), fd, reason, order, connections)
    {
      var replies;
      replies, order := Build(fd, reason, state);
      QueueNone(connections);
      CalmQueue(connections, replies, fd);
      EnqueueReplies(replies);
    }

    /** Tells the other members of its channels that the client is gone, then drops it. */
    method NotifyAndDisconnect(fd: int, reason: string) returns (ghost at: nat, ghost order: seq<int>)
      requires Ready({fd}) && fd != listenFd && NoNewline(reason)
      modifies `pollfds, `connections, `log, state, health
      ensures Valid() && connections.Keys == old(connections).Keys - {fd}
      ensures health.clients == old(health.clients) - {fd} && (Quiet(old(health.clients)) ==> Quiet(health.clients))
      ensures Calm(old(connections), connections, fd) && old(log) <= log
      ensures log == PartLog(old(connections), old(log), fd, reason, order)
      ensures fd in old(connections) ==> Ends(log, fd, reason)
      ensures if fd in old(connections) then Vanished(old(Shape(pollfds)), at, fd, Shape(pollfds))
              else Shape(pollfds) == old(Shape(pollfds))
    {
      ghost var conns, s := connections, state.Abs();
      order := TellPeers(fd, reason);
      Parted(state.password, log, s, conns, fd, reason, order, connections);
      at := DisconnectClient(fd);
      log := PartLog(conns, log, fd, reason, order);
    }

    // ----- Writing --------------------------------------------------------------------------

    /** `taken` is what send returns for the pending bytes. */
    method HandleWrite(fd: int, taken: int) returns (ok: bool)
      requires Valid() && fd in connections && taken <= |connections[fd].send|
      modifies `pollfds, `connections
      ensures Valid() && connections == old(connections)[fd := Written(old(connections)[fd], taken)]
      ensures Shape(pollfds) == old(Shape(pollfds))
      ensures ok <==> old(connections)[fd].send == "" || taken > 0
    {
      ghost var conns, p := connections, pollfds;
      ghost var i := WatchedAt(listenFd, p, conns, fd);
      var v := connections[fd];
      ok := v.send == "" || taken > 0;
      WrittenOk(v, taken);
      connections := connections[fd := Written(v, taken)];
      SameHistory(state.password, log, state.Abs(), conns, fd, Written(v, taken));
      if ok && connections[fd].send == "" {
        SetPollout(fd, false);
        ToggledWired(listenFd, p, conns, i, connections[fd], false);
        ToggledShape(p, i, p[i].events - {POLLOUT});
      } else {
        SameSendWired(listenFd, p, conns, fd, connections[fd]);
      }
    }

    // ----- Reading --------------------------------------------------------------------------

    /** Pops one line of `fd`, executes it, queues the replies and, after QUIT, disconnects. */
    method ExecuteLine(fd: int, now: int) returns (gone: bool, ghost at: nat)
      requires Ready({fd}) && fd in connections && fd != listenFd
      requires Cut(connections[fd].recv) < |connections[fd].recv|
      modifies `pollfds, `connections, `log, state, health
      ensures Quiet(old(health.clients)) ==> Quiet(health.clients)
      ensures gone ==> Valid() && connections.Keys == old(connections).Keys - {fd} &&
                       Vanished(old(Shape(pollfds)), at, fd, Shape(pollfds))
      ensures gone ==> Ends(log, fd, "Client Quit")
      ensures Seen(old(health.clients), fd, now) && !gone ==> Seen(health.clients, fd, now)
      ensures gone <==> IsQuit(FirstOf(old(connections)[fd]))
      ensures Calm(old(connections), connections, fd) && old(log) <= log
      ensures !gone ==> Ready({fd}) && connections.Keys == old(connections).Keys &&
                        Shape(pollfds) == old(Shape(pollfds)) && Progress(old(connections)[fd], connections[fd])
    {
      gone, at := false, 0;
      ghost var order;
      var quit;
      quit, order := ExecuteCommand(fd, now);
      if quit {
        NoNewlineInQuit();
        ghost var conns := connections;
        ghost var story := log;
        ghost var order;
        at, order := NotifyAndDisconnect(fd, "Client Quit");
        CalmThen(old(connections), conns, connections, fd);
        PrefixThen(old(log), story, log);
        gone := true;
      }
    }

    method ExecuteCommand(fd: int, now: int) returns (quit: bool, ghost order: seq<int>)
      requires Ready({fd}) && fd in connections
      requires Cut(connections[fd].recv) < |connections[fd].recv|
      modifies `pollfds, `connections, `log, state, health
      ensures Quiet(old(health.clients)) ==> Quiet(health.clients)
      ensures Seen(old(health.clients), fd, now) ==> Seen(health.clients, fd, now)
      ensures Ready({fd}) && connections.Keys == old(connections).Keys && Shape(pollfds) == old(Shape(pollfds))
      ensures Progress(old(connections)[fd], connections[fd]) && Calm(old(connections), connections, fd)
      ensures log == old(log) + [Command(fd, FirstOf(old(connections)[fd]), order)]
      ensures quit <==> IsQuit(FirstOf(old(connections)[fd]))
    {
      ghost var conns, s := connections, state.Abs();
      ClientsConnected(state.password, log, s, conns);
      var replies;
      replies, quit, order := PopAndDispatch(fd, now);
      EnqueueAnswers(fd, replies, conns, s, order);
    }

    /** Queues what the command popped from `conns` in state `s` is answered with. */
    method EnqueueAnswers(fd: int, replies: seq<Out>, ghost conns: Conns, ghost s: State, ghost order: seq<int>)
      requires Wired(listenFd, pollfds, connections) && fd in conns && fd in s.clients
      requires Logged(state.password, log, s, conns) && AllSettled(conns, {fd})
      requires Cut(conns[fd].recv) < |conns[fd].recv| && NoNewline(FirstOf(conns[fd]))
      requires Answered(s, fd, FirstOf(conns[fd]), order, state.Abs(), replies)
      requires connections == conns[fd := Popped(conns[fd])]
      modifies `pollfds, `connections, `log
      ensures Wired(listenFd, pollfds, connections) && Shape(pollfds) == old(Shape(pollfds))
      ensures Logged(state.password, log, state.Abs(), connections) && AllSettled(connections, {fd})
      ensures connections.Keys == conns.Keys && Progress(conns[fd], connections[fd]) && Calm(conns, connections, fd)
      ensures log == old(log) + [Command(fd, FirstOf(conns[fd]), order)]
    {
      EnqueueReplies(replies);
      Executed(state.password, log, s, conns, fd, order, state.Abs(), replies, connections);
      log := log + [Command(fd, FirstOf(conns[fd]), order)];
    }

    method PopAndDispatch(fd: int, now: int) returns (replies: seq<Out>, quit: bool, ghost order: seq<int>)
      requires state.Valid() && Wired(listenFd, pollfds, connections) && fd in connections
      requires fd in state.Abs().clients && Cut(connections[fd].recv) < |connections[fd].recv|
      modifies `connections, state, health
      ensures state.Valid() && Wired(listenFd, pollfds, connections)
      ensures connections == old(connections)[fd := Popped(old(connections)[fd])]
      ensures var line := FirstOf(old(connections)[fd]);
              NoNewline(line) && (quit <==> IsQuit(line)) &&
              Answered(old(state.Abs()), fd, line, order, state.Abs(), replies)
      ensures health.clients.Keys <= old(health.clients).Keys + {fd}
      ensures Quiet(old(health.clients)) ==> Quiet(health.clients)
      ensures Seen(old(health.clients), fd, now) ==> Seen(health.clients, fd, now)
    {
      PoppedWired(listenFd, pollfds, connections, fd);
      var line := FirstOf(connections[fd]);
      connections := connections[fd := Popped(connections[fd])];
      replies, quit, order := ParseAndDispatch(fd, line, now);
    }

    method ParseAndDispatch(fd: int, line: string, now: int)
      returns (replies: seq<Out>, quit: bool, ghost order: seq<int>)
      requires state.Valid() && fd in state.Abs().clients
      modifies state, health
      ensures state.Valid() && (quit <==> IsQuit(line))
      ensures Answered(old(state.Abs()), fd, line, order, state.Abs(), replies)
      ensures health.clients.Keys <= old(health.clients).Keys + {fd}
      ensures Quiet(old(health.clients)) ==> Quiet(health.clients)
      ensures Seen(old(health.clients), fd, now) ==> Seen(health.clients, fd, now)
    {
      ghost var s := state.Abs();
      var msg := ParseLine(line);
      var result;
      result, order := Dispatch(fd, msg, state, health, now);
      HealthKept(old(health.clients), health.clients, fd, now);
      QuitDecided(s, fd, line);
      replies, quit := result.replies, result.shouldDisconnect;
    }

    /** Takes what recv delivered (None when it failed or returned 0) and executes the complete
        lines. False asks the caller to disconnect, unless QUIT has done so already. */
    method HandleRead(fd: int, chunk: Option<string>, now: int) returns (ok: bool, ghost at: nat)
      requires Valid() && fd in connections && fd != listenFd
      requires chunk.Some? ==> 1 <= |chunk.value| <= READ_SIZE
      modifies `pollfds, `connections, `log, state, health
      ensures Quiet(old(health.clients)) ==> Quiet(health.clients)
      ensures if fd in connections then
                Ready(if ok then {} else {fd}) && connections.Keys == old(connections).Keys &&
                Shape(pollfds) == old(Shape(pollfds))
              else
                !ok && Valid() && connections.Keys == old(connections).Keys - {fd} &&
                Vanished(old(Shape(pollfds)), at, fd, Shape(pollfds))
      ensures ok <==> Readable(old(connections)[fd].recv, chunk)
      ensures ok ==> Seen(health.clients, fd, now)
      ensures fd !in connections ==> Ends(log, fd, "Client Quit")
      ensures !ok ==> (fd !in connections <==> LastWords(old(connections)[fd].recv, chunk) == "Client Quit")
      ensures Calm(old(connections), connections, fd) && old(log) <= log
      ensures ok ==> fd in connections && connections[fd].sent == old(connections)[fd].sent &&
                     old(connections)[fd].send <= connections[fd].send &&
                     connections[fd].received == old(connections)[fd].received + chunk.value
    {
      at := 0;
      CalmSame(connections, fd);
      if chunk.None? { return false, at; }
      CalmPut(connections, fd, Received(connections[fd], chunk.value));
      var fits := Receive(fd, chunk.value);
      ghost var v, conns := connections[fd], connections;
      assert v.recv == old(connections)[fd].recv + chunk.value && v.sent == old(connections)[fd].sent;
      if !fits { return false, at; }
      NoteActivity(fd, now);
      ok, at := DrainLines(fd, now);
      CalmThen(old(connections), conns, connections, fd);
      assert ok <==> Readable(old(connections)[fd].recv, chunk);
    }

    method NoteActivity(fd: int, now: int)
      modifies health
      ensures health.clients.Keys == old(health.clients).Keys + {fd}
      ensures Quiet(old(health.clients)) ==> Quiet(health.clients)
      ensures Seen(health.clients, fd, now)
    {
      QuietStep(health.clients, Activity(fd, now));
      health.UpdateActivity(fd, now);
    }

    /** The loop over the complete lines; afterwards only the bounded residue is left. */
    method DrainLines(fd: int, now: int) returns (ok: bool, ghost at: nat)
      requires Ready({fd}) && fd in connections && fd != listenFd && |Residue(connections[fd].recv)| <= MAX_RESIDUE
      modifies `pollfds, `connections, `log, state, health
      ensures Quiet(old(health.clients)) ==> Quiet(health.clients)
      ensures (ok <==> fd in connections) && (ok <==> !Quits(old(connections)[fd].recv))
      ensures Valid() && Calm(old(connections), connections, fd) && old(log) <= log
      ensures ok ==> connections.Keys == old(connections).Keys && Shape(pollfds) == old(Shape(pollfds)) &&
                     connections[fd].received == old(connections)[fd].received &&
                     connections[fd].sent == old(connections)[fd].sent &&
                     old(connections)[fd].send <= connections[fd].send
      ensures ok && Seen(old(health.clients), fd, now) ==> Seen(health.clients, fd, now)
      ensures !ok ==> Ends(log, fd, "Client Quit")
      ensures !ok ==> connections.Keys == old(connections).Keys - {fd} &&
                      Vanished(old(Shape(pollfds)), at, fd, Shape(pollfds))
    {
      at := 0;
      CalmSame(connections, fd);
      ghost var residue := Residue(connections[fd].recv);
      while Cut(connections[fd].recv) < |connections[fd].recv|
        invariant fd in connections && Ready({fd}) && connections.Keys == old(connections).Keys
        invariant Shape(pollfds) == old(Shape(pollfds))
        invariant Residue(connections[fd].recv) == residue
        invariant Quits(connections[fd].recv) <==> Quits(old(connections)[fd].recv)
        invariant connections[fd].received == old(connections)[fd].received &&
                  connections[fd].sent == old(connections)[fd].sent &&
                  old(connections)[fd].send <= connections[fd].send
        invariant Calm(old(connections), connections, fd) && old(log) <= log
        invariant Quiet(old(health.clients)) ==> Quiet(health.clients)
        invariant Seen(old(health.clients), fd, now) ==> Seen(health.clients, fd, now)
        decreases |connections[fd].recv|
      {
        PopKeepsResidue(connections[fd]);
        ghost var conns, story := connections, log;
        var gone;
        gone, at := ExecuteLine(fd, now);
        CalmThen(old(connections), conns, connections, fd);
        PrefixThen(old(log), story, log);
        if gone { return false, at; }
      }
      AtRest(connections, fd, residue);
      assert !Quits(connections[fd].recv);
      return true, at;
    }

    /** Appends the bytes; false when the first line is already too long. The buffer stays bounded. */
    method Receive(fd: int, chunk: string) returns (fits: bool)
      requires Valid() && fd in connections && 1 <= |chunk| <= READ_SIZE
      modifies `connections
      ensures Ready({fd}) && connections == old(connections)[fd := Received(old(connections)[fd], chunk)]
      ensures |connections[fd].recv| <= MAX_BUFFER
      ensures (fits <==> !TooLong(connections[fd].recv)) && (fits ==> |Residue(connections[fd].recv)| <= MAX_RESIDUE)
      ensures |old(connections)[fd].recv| >= MAX_LINE ==> !fits
    {
      ghost var conns := connections;
      ghost var i := WatchedAt(listenFd, pollfds, conns, fd);
      var v := connections[fd];
      assert v.Settled();
      ReceivedOk(v, chunk);
      SameSendWired(listenFd, pollfds, conns, fd, Received(v, chunk));
      SameHistory(state.password, log, state.Abs(), conns, fd, Received(v, chunk));
      ReadBound(v.recv, chunk);
      connections := connections[fd := Received(v, chunk)];
      fits := !TooLong(connections[fd].recv);
    }

    // ----- The loop -------------------------------------------------------------------------

    /** poll reports the events of every entry. */
    method WaitForEvents(os: Os)
      requires Valid()
      modifies `pollfds
      ensures Valid() && |pollfds| == |old(pollfds)|
      ensures forall i :: 0 <= i < |pollfds| ==>
                Shape(pollfds)[i] == (old(pollfds)[i].fd, os.revents(old(pollfds)[i].fd))
    {
      ghost var p := pollfds;
      var polled := pollfds;
      for i := 0 to |polled|
        invariant |polled| == |p|
        invariant forall j :: 0 <= j < |p| ==>
                    polled[j] == if j < i then p[j].(revents := os.revents(p[j].fd)) else p[j]
      {
        polled := polled[i := polled[i].(revents := os.revents(polled[i].fd))];
      }
      PolledWired(listenFd, p, polled, connections);
      pollfds := polled;
    }

    /** One entry of a client with events: read, then write, then look for a hang-up. */
    method HandleEntry(i: nat, os: Os) returns (removed: bool)
      requires Valid() && 1 <= i < |pollfds| && os.Lawful(listenFd) && pollfds[i].revents != {}
      modifies this, state, health
      ensures Valid() && (Quiet(old(health.clients)) ==> Quiet(health.clients)) && old(log) <= log
      ensures Shape(pollfds) == if removed then Without(old(Shape(pollfds)), i) else old(Shape(pollfds))
      ensures served == old(served) + [old(pollfds)[i].fd]
      ensures removed <==> old(pollfds)[i].fd !in connections
      ensures Turn(old(connections), connections, old(pollfds)[i].fd, old(pollfds)[i].revents, os)
      ensures var fd, rev := old(pollfds)[i].fd, old(pollfds)[i].revents;
              if !removed then POLLIN in rev ==> Seen(health.clients, fd, os.now)
              else Ends(log, fd, FinalWords(old(connections)[fd].recv, rev, os.recv(fd)))
    {
      ClientEntry(listenFd, pollfds, connections, i);
      var fd, rev := pollfds[i].fd, pollfds[i].revents;
      served := served + [fd];
      ghost var conns := connections;
      CalmSame(conns, fd);
      if POLLIN in rev {
        var gone := ReadEntry(i, fd, os);
        if gone {
          TurnGone(conns, connections, fd, rev, os);
          return true;
        }
      }
      ghost var read, story := connections, log;
      removed := FinishEntry(i, fd, rev, os);
      CalmThen(conns, read, connections, fd);
      PrefixThen(old(log), story, log);
      if removed {
        TurnGone(conns, connections, fd, rev, os);
      } else {
        ReadAndFlushed(conns[fd], read[fd], connections[fd], fd, rev, os);
        TurnServed(conns, connections, fd, rev, os);
      }
    }

    /** The read of an entry, with the disconnect if it fails. */
    method ReadEntry(i: nat, fd: int, os: Os) returns (gone: bool)
      requires Valid() && fd in connections && fd != listenFd && os.Lawful(listenFd)
      requires DistinctFds(Shape(pollfds)) && 1 <= i < |pollfds| && Shape(pollfds)[i].0 == fd
      modifies `pollfds, `connections, `log, state, health
      ensures Valid() && (Quiet(old(health.clients)) ==> Quiet(health.clients)) && old(log) <= log
      ensures Shape(pollfds) == if gone then Without(old(Shape(pollfds)), i) else old(Shape(pollfds))
      ensures connections.Keys == if gone then old(connections).Keys - {fd} else old(connections).Keys
      ensures Calm(old(connections), connections, fd)
      ensures gone <==> !Readable(old(connections)[fd].recv, os.recv(fd))
      ensures gone ==> Ends(log, fd, LastWords(old(connections)[fd].recv, os.recv(fd)))
      ensures !gone ==> Seen(health.clients, fd, os.now)
      ensures !gone ==> connections[fd].sent == old(connections)[fd].sent &&
                        old(connections)[fd].send <= connections[fd].send &&
                        connections[fd].received == old(connections)[fd].received + os.recv(fd).value
    {
      ghost var shape, conns := Shape(pollfds), connections;
      var ok;
      ghost var at;
      OpenLawful(os, listenFd);
      ok, at := HandleRead(fd, os.recv(fd), os.now);
      if ok { return false; }
      ghost var read, story := connections, log;
      if fd in connections {
        NoNewlineInQuit();
        ghost var order;
        at, order := NotifyAndDisconnect(fd, "Connection reset");
        CalmThen(conns, read, connections, fd);
        PrefixThen(old(log), story, log);
      }
      SameEntry(shape, i, at, fd, Shape(pollfds));
      return true;
    }

    /** One send of the pending bytes if the socket is ready for them. */
    method WriteIfReady(fd: int, rev: set<Bit>, os: Os) returns (ok: bool)
      requires Valid() && fd in connections && os.Lawful(listenFd)
      modifies `pollfds, `connections
      ensures Valid() && Shape(pollfds) == old(Shape(pollfds)) && connections.Keys == old(connections).Keys
      ensures Calm(old(connections), connections, fd) && connections[fd].received == old(connections)[fd].received
      ensures if ok then Sent(old(connections)[fd], connections[fd], fd, rev, os)
              else POLLOUT in rev && SendFails(os, fd)
    {
      CalmSame(connections, fd);
      ok := true;
      if POLLOUT in rev {
        ghost var v := connections[fd];
        var taken := os.send(fd, |connections[fd].send|);
        assert taken <= |v.send| by { OpenLawful(os, listenFd); }
        CalmPut(connections, fd, Written(v, taken));
        WrittenFlushed(v, fd, os);
        ok := HandleWrite(fd, taken);
      }
    }

    /** The part of an entry after a read that kept the connection. */
    method FinishEntry(i: nat, fd: int, rev: set<Bit>, os: Os) returns (removed: bool)
      requires Valid() && fd in connections && fd != listenFd && os.Lawful(listenFd)
      requires DistinctFds(Shape(pollfds)) && 1 <= i < |pollfds| && Shape(pollfds)[i].0 == fd
      modifies `pollfds, `connections, `log, state, health
      ensures Valid() && (Quiet(old(health.clients)) ==> Quiet(health.clients)) && old(log) <= log
      ensures Shape(pollfds) == if removed then Without(old(Shape(pollfds)), i) else old(Shape(pollfds))
      ensures connections.Keys == if removed then old(connections).Keys - {fd} else old(connections).Keys
      ensures Calm(old(connections), connections, fd) && (Broken(rev) ==> removed)
      ensures removed ==> Broken(rev) || (POLLOUT in rev && SendFails(os, fd))
      ensures if removed then Ends(log, fd, "Connection reset") else health.clients == old(health.clients)
      ensures !removed ==> connections[fd].received == old(connections)[fd].received &&
                           Sent(old(connections)[fd], connections[fd], fd, rev, os)
    {
      ghost var shape, conns := Shape(pollfds), connections;
      NoNewlineInQuit();
      ghost var at;
      var ok := WriteIfReady(fd, rev, os);
      if !ok || POLLERR in rev || POLLHUP in rev || POLLNVAL in rev {
        ghost var written := connections;
        ghost var order;
        at, order := NotifyAndDisconnect(fd, "Connection reset");
        CalmThen(conns, written, connections, fd);
        SameEntry(shape, i, at, fd, Shape(pollfds));
        return true;
      }
      return false;
    }

    /** One pass over the poll entries, which accepts extend and disconnects shorten under way:
        every entry that had events is handled exactly once, in order, and no other. Whoever had no
        events is undisturbed; whoever had some was read from and flushed once, or is gone for a
        cause; nobody is new but the accepted client. */
    method Scan(os: Os)
      requires Valid() && os.Lawful(listenFd)
      modifies this, state, health
      ensures Valid() && (Quiet(old(health.clients)) ==> Quiet(health.clients)) && old(log) <= log
      ensures served == old(served) + WithEvents(old(Shape(pollfds)))
      ensures Scanned(old(connections), connections, old(Shape(pollfds)), |old(pollfds)|, os)
    {
      ghost var start, conns, j := Shape(pollfds), connections, 0;
      ScanningStart(listenFd, pollfds, connections, served, os);
      var i := 0;
      ghost var tail, quiet := Shape(pollfds)[0..], Quiet(health.clients);
      while i < |pollfds|
        invariant Steady(quiet, old(log))
        invariant 0 <= i <= |pollfds| && (i == 0 <==> j == 0)
        invariant tail == Shape(pollfds)[i..]
        invariant Scanning(conns, connections, start, tail, old(served), served, j, os)
        decreases if i == 0 then 1 else 0, |pollfds| - i
      {
        i, tail := VisitNext(i, os, quiet, old(log), conns, start, old(served), tail, j);
        j := j + 1;
      }
      assert tail == [];
      OpenSteady(quiet, old(log));
      ScanningEnd(conns, connections, start, old(served), served, j, os);
    }

    /** A turn of the scan, with what the pass has come to after it. */
    method VisitNext(i: nat, os: Os, ghost quiet: bool, ghost story: seq<Event>, ghost conns: Conns,
                     ghost start: seq<(int, set<Bit>)>, ghost done: seq<int>, ghost tail: seq<(int, set<Bit>)>,
                     ghost j: nat) returns (next: nat, ghost rest: seq<(int, set<Bit>)>)
      requires Steady(quiet, story) && os.Lawful(listenFd) && i < |pollfds| && (i == 0 <==> j == 0)
      requires tail == Shape(pollfds)[i..] && Scanning(conns, connections, start, tail, done, served, j, os)
      modifies this, state, health
      ensures Steady(quiet, story) && 1 <= next <= |pollfds| && (i > 0 ==> |pollfds| - next < |old(pollfds)| - i)
      ensures rest == Shape(pollfds)[next..] && Scanning(conns, connections, start, rest, done, served, j + 1, os)
    {
      OpenSteady(quiet, story);
      ghost var before, visited, log' := connections, served, log;
      next := VisitEntry(i, os);
      rest := Shape(pollfds)[next..];
      ScanningStep(conns, before, connections, start, tail, rest, done, visited, served, j, os);
      PrefixThen(story, log', log);
    }

    /** The listening socket: accept is called once, if there is a connection to accept. */
    method HandleListening(rev: set<Bit>, os: Os)
      requires Valid() && os.Lawful(listenFd)
      modifies `pollfds, `connections, `log, `served, state
      ensures Valid() && served == old(served) + [listenFd] && old(log) <= log
      ensures var accepted := if POLLIN in rev then os.accept(old(connections).Keys) else None;
              if accepted.None? then connections == old(connections) && Shape(pollfds) == old(Shape(pollfds))
              else connections == old(connections)[accepted.value.0 := NEW] &&
                   Shape(pollfds) == old(Shape(pollfds)) + [(accepted.value.0, {})]
    {
      served := served + [listenFd];
      OpenLawful(os, listenFd);
      if POLLIN in rev { AcceptClient(os.accept(connections.Keys)); }
    }

    /** The body of the pass. The index is unsigned in the source: stepping back after a removal
        never goes below zero, because entry 0 is never removed. */
    method VisitEntry(index: nat, os: Os) returns (next: nat)
      requires Valid() && os.Lawful(listenFd) && index < |pollfds|
      modifies this, state, health
      ensures Valid() && (Quiet(old(health.clients)) ==> Quiet(health.clients)) && old(log) <= log
      ensures 1 <= next <= |pollfds| && (index > 0 ==> |pollfds| - next < |old(pollfds)| - index)
      ensures Stepped(old(connections), connections, old(Shape(pollfds)[index..]), Shape(pollfds)[next..], old(served),
                      served, index == 0, os)
    {
      NextEntry(listenFd, pollfds, connections, index);
      var rev, fd := pollfds[index].revents, pollfds[index].fd;
      if rev == {} {
        SteppedQuiet(connections, Shape(pollfds), index, served, os);
        next := index + 1;
      } else if fd == listenFd {
        ghost var shape, conns, done := Shape(pollfds), connections, served;
        HandleListening(rev, os);
        SteppedFirst(conns, connections, shape, Shape(pollfds), done, served, os);
        next := 1;
      } else {
        next := VisitClient(index, os);
      }
    }

    /** The entry of a client with events; the next one moves up when it is removed. */
    method VisitClient(index: nat, os: Os) returns (next: nat)
      requires Valid() && os.Lawful(listenFd) && 1 <= index < |pollfds| && pollfds[index].revents != {}
      modifies this, state, health
      ensures Valid() && (Quiet(old(health.clients)) ==> Quiet(health.clients)) && old(log) <= log
      ensures 1 <= next <= |pollfds| && |pollfds| - next < |old(pollfds)| - index
      ensures Stepped(old(connections), connections, old(Shape(pollfds)[index..]), Shape(pollfds)[next..], old(served),
                      served, false, os)
    {
      ghost var shape, conns, done := Shape(pollfds), connections, served;
      var i := index;
      var removed := HandleEntry(index, os);
      if removed {
        assert i >= 1;
        i := i - 1;
      }
      next := i + 1;
      SteppedClient(conns, connections, shape, Shape(pollfds), index, next, removed, done, served, os);
    }

    /** Disconnects the clients whose PING went unanswered too long. */
    method Sweep(now: int)
      requires Valid()
      modifies `pollfds, `connections, `log, state, health
      ensures Valid() && (Quiet(old(health.clients)) ==> Quiet(health.clients))
      ensures forall f :: f in connections <==>
                f in old(connections) && !TimedOut(old(health.clients), health.timeoutSeconds, f, now)
      ensures Quiet(old(health.clients)) ==> Now() == old(Now())
      ensures old(log) <= log && TimeoutsOnly(log[|old(log)|..])
    {
      NoNewlineInQuit();
      var late := health.CollectTimedOutClients(now);
      NeverListening(listenFd, pollfds, connections);
      ghost var quiet := Quiet(health.clients);
      if quiet { OpenQuiet(health.clients); }
      assert late == [] || late[0] in late;
      for i := 0 to |late|
        invariant Valid() && listenFd !in connections && (quiet ==> Quiet(health.clients))
        invariant (late == [] ==> Now() == old(Now())) && old(log) <= log && TimeoutsOnly(log[|old(log)|..])
        invariant forall f <- health.clients :: f in connections
        invariant forall f <- late :: f != listenFd
        invariant forall f :: f in connections <==> f in old(connections) && f !in late[..i]
      {
        assert late[i] in late;
        ghost var story := log;
        ghost var at, order := NotifyAndDisconnect(late[i], "Ping timeout");
        PrefixThen(old(log), story, log);
        OneTimeout(old(log), story, log, late[i], order);
      }
    }

    /** poll and the pass over its answers: each client by the events reported for it. */
    method Pass(os: Os)
      requires Valid() && os.Lawful(listenFd)
      modifies this, state, health
      ensures Valid() && (Quiet(old(health.clients)) ==> Quiet(health.clients)) && old(log) <= log
      ensures Passed(old(connections), connections, listenFd, os)
    {
      WaitForEvents(os);
      ghost var p, conns := pollfds, connections;
      Entries(listenFd, p, conns);
      Scan(os);
      forall f | f in conns ensures Outcome(conns, connections, f, os.revents(f), os) {
        var k := WatchedAt(listenFd, p, conns, f);
        assert Shape(p)[k] == (f, os.revents(f));
      }
      assert Shape(p)[0] == (listenFd, os.revents(listenFd));
      NewcomerOnly(conns, connections, Shape(p), os, listenFd);
    }

    /** One round: the pass treats each client by its events, and the sweep after it changes
        nothing, because nobody is ever pinged. */
    method OneRound(os: Os) returns (ghost passed: Moment)
      requires Valid() && Quiet(health.clients) && os.Lawful(listenFd)
      modifies this, state, health
      ensures Valid() && Quiet(health.clients)
      ensures Round(old(Now()), passed, listenFd, os) && Now() == passed
    {
      Pass(os);
      passed := Now();
      Sweep(os.now);
    }

    /** The server, for as long as the environment has something to say, with its state after the
        pass and after the sweep of every round: every pass treats each client by its events, and
        no sweep ever changes anything, because nobody is ever pinged. */
    method Run(script: seq<Os>) returns (ghost passed: seq<Moment>, ghost swept: seq<Moment>)
      requires Valid() && Quiet(health.clients) && forall os <- script :: os.Lawful(listenFd)
      modifies this, state, health
      ensures Valid() && Quiet(health.clients)
      ensures |passed| == |script| && |swept| == |script| + 1 && swept[0] == old(Now()) && swept[|script|] == Now()
      ensures forall i :: 0 <= i <= |script| ==> swept[i].Of(state.password)
      ensures forall i :: 0 <= i < |script| ==>
                Round(swept[i], passed[i], listenFd, script[i]) && swept[i + 1] == passed[i]
    {
      passed, swept := [], [Now()];
      for i := 0 to |script|
        invariant Valid() && Quiet(health.clients)
        invariant |passed| == i && |swept| == i + 1 && swept[0] == old(Now()) && swept[i] == Now()
        invariant forall j :: 0 <= j <= i ==> swept[j].Of(state.password)
        invariant forall j :: 0 <= j < i ==>
          Round(swept[j], passed[j], listenFd, script[j]) && swept[j + 1] == passed[j]
      {
        assert script[i] in script;
        ghost var middle := OneRound(script[i]);
        passed, swept := passed + [middle], swept + [Now()];
      }
    }
  }

  lemma ClientsConnected(password: string, log: seq<Event>, s: State, conns: Conns)
    requires Logged(password, log, s, conns)
    ensures s.clients.Keys == conns.Keys
  {
    OpenLogged(password, log, s, conns);
  }

  lemma Stranger(conns: Conns, fd: int)
    requires fd !in conns
    ensures conns - {fd} == conns
    ensures AllSettled(conns, {fd}) ==> AllSettled(conns, {})
  {
  }

  lemma Arrived(listenFd: int, p: seq<PollFd>, password: string, log: seq<Event>, s: State, conns: Conns, cs: int,
                host: string)
    requires Wired(listenFd, p, conns) && Logged(password, log, s, conns) && AllSettled(conns, {})
    requires cs >= 0 && cs != listenFd && cs !in conns && SpaceFree(host) && NoNewline(host)
    ensures cs !in s.clients
    ensures Wired(listenFd, p + [PollFd(cs, {POLLIN}, {})], conns[cs := NEW])
    ensures Shape(p + [PollFd(cs, {POLLIN}, {})]) == Shape(p) + [(cs, {})]
    ensures var newcomer := Client("", "", "", host, false, false);
            Logged(password, log + [Connect(cs, host)], WithClient(s, cs, newcomer), conns[cs := NEW])
    ensures AllSettled(conns[cs := NEW], {})
  {
    NewOk();
    ClientsConnected(password, log, s, conns);
    AddedWired(listenFd, p, conns, cs, NEW);
    ConnectLogged(password, log, s, conns, cs, host);
  }

  lemma NotWatched(listenFd: int, p: seq<PollFd>, conns: Conns, fd: int)
    requires Wired(listenFd, p, conns) && fd !in conns && fd != listenFd
    ensures Distinct(p) && forall i :: 0 <= i < |p| ==> p[i].fd != fd
  {
    OpenWired(listenFd, p, conns);
  }

  lemma Departed(password: string, log: seq<Event>, s: State, conns: Conns, fd: int, reason: string,
                 order: seq<int>, conns': Conns)
    requires Logged(password, log, s, conns) && fd in conns && fd in s.clients && NoNewline(reason)
    requires Enumerates(order, Peers(s, fd))
    requires conns' == Queue(conns, ToAll(order, QuitLine(s.clients[fd], reason), fd)) - {fd}
    requires AllSettled(conns, {fd})
    ensures Logged(password, log + [Disconnect(fd, reason, order)], Erase(s, fd), conns')
    ensures AllSettled(conns', {}) && conns'.Keys == conns.Keys - {fd}
  {
    DisconnectLogged(password, log, s, conns, fd, reason, order, conns');
  }

  /** The notices about `fd` have been queued for its peers, in some order. */
  ghost predicate Farewell(s: State, conns: Conns, fd: int, reason: string, order: seq<int>, told: Conns) {
    forall key: Key :: Turned(key, order) ==>
      if fd in s.clients then
        Enumerates(order, Peers(s, fd)) && told == Queue(conns, ToAll(order, QuitLine(s.clients[fd], reason), fd))
      else told == conns
  }

  function PartState(conns: Conns, s: State, fd: int): State {
    if fd in conns && fd in s.clients then Erase(s, fd) else s
  }

  function PartLog(conns: Conns, log: seq<Event>, fd: int, reason: string, order: seq<int>): seq<Event> {
    if fd in conns then log + [Disconnect(fd, reason, order)] else log
  }

  /** The peers have been told; now the client is forgotten. */
  lemma {:induction false} Parted(password: string, log: seq<Event>, s: State, conns: Conns, fd: int, reason: string,
                                  order: seq<int>, told: Conns)
    requires Logged(password, log, s, conns) && AllSettled(conns, {fd}) && NoNewline(reason) && Calm(conns, told, fd)
    requires Farewell(s, conns, fd, reason, order, told)
    ensures (fd in conns <==> fd in s.clients) && (fd in told <==> fd in conns)
    ensures Logged(password, PartLog(conns, log, fd, reason, order), PartState(told, s, fd), told - {fd})
    ensures AllSettled(told - {fd}, {}) && log <= PartLog(conns, log, fd, reason, order)
    ensures fd in conns ==> Ends(PartLog(conns, log, fd, reason, order), fd, reason)
    ensures (told - {fd}).Keys == conns.Keys - {fd} && Calm(conns, told - {fd}, fd)
  {
    ClientsConnected(password, log, s, conns);
    CalmDrop(conns, told, fd);
    assert Turned(Key, order);
    if fd in conns {
      Departed(password, log, s, conns, fd, reason, order, told - {fd});
    } else {
      Stranger(conns, fd);
    }
  }

  lemma NoNewlineInQuit()
    ensures NoNewline("Client Quit") && NoNewline("Connection reset") && NoNewline("Ping timeout")
  {
  }

  /** The last thing that happened is that `fd` was disconnected for that reason. */
  predicate Ends(log: seq<Event>, fd: int, reason: string) {
    log != [] &&
    match log[|log| - 1]
    case Disconnect(f, r, _) => f == fd && r == reason
    case _ => false
  }

  /** Nothing but clients whose time is up being disconnected. */
  predicate TimeoutsOnly(events: seq<Event>) { forall e <- events :: e.Disconnect? && e.reason == "Ping timeout" }

  lemma {:induction false} OneTimeout(start: seq<Event>, story: seq<Event>, log: seq<Event>, fd: int, order: seq<int>)
    requires start <= story && TimeoutsOnly(story[|start|..])
    requires log == story || log == story + [Disconnect(fd, "Ping timeout", order)]
    ensures start <= log && TimeoutsOnly(log[|start|..])
  {
    if log != story { assert log[|start|..] == story[|start|..] + [log[|story|]]; }
  }

  /** Why a client whose read fails is disconnected: unless nothing arrived or the line is too long,
      it has said QUIT. */
  function LastWords(buffer: string, chunk: Option<string>): string {
    if chunk.Some? && !TooLong(buffer + chunk.value) then "Client Quit" else "Connection reset"
  }

  function FinalWords(buffer: string, rev: set<Bit>, chunk: Option<string>): string {
    if POLLIN in rev && !Readable(buffer, chunk) then LastWords(buffer, chunk) else "Connection reset"
  }

  /** The monitor has noted activity of `fd` at that time. */
  predicate Seen(m: HealthMap, fd: int, now: int) { fd in m && m[fd].lastActivity == now }

  /** The monitor heard of nothing, or of a PONG from `fd`. */
  lemma HealthKept(before: HealthMap, after: HealthMap, fd: int, now: int)
    requires after == before || exists token :: after == Step(before, PongReceived(fd, token, now))
    ensures after.Keys <= before.Keys + {fd}
    ensures Quiet(before) ==> Quiet(after)
    ensures Seen(before, fd, now) ==> Seen(after, fd, now)
  {
    if after != before {
      var token :| after == Step(before, PongReceived(fd, token, now));
      QuietStep(before, PongReceived(fd, token, now));
    }
  }

  lemma PoppedWired(listenFd: int, p: seq<PollFd>, conns: Conns, fd: int)
    requires Wired(listenFd, p, conns) && fd in conns && Cut(conns[fd].recv) < |conns[fd].recv|
    ensures Wired(listenFd, p, conns[fd := Popped(conns[fd])])
    ensures NoNewline(FirstOf(conns[fd]))
  {
    ghost var i := WatchedAt(listenFd, p, conns, fd);
    PoppedOk(conns[fd]);
    SameSendWired(listenFd, p, conns, fd, Popped(conns[fd]));
  }

  lemma ExecutedCalm(conns: Conns, fd: int, replies: seq<Out>, conns': Conns)
    requires fd in conns && Cut(conns[fd].recv) < |conns[fd].recv|
    requires conns' == Queue(conns[fd := Popped(conns[fd])], replies)
    ensures Calm(conns, conns', fd) && Progress(conns[fd], conns'[fd])
  {
    var popped := conns[fd := Popped(conns[fd])];
    CalmPut(conns, fd, Popped(conns[fd]));
    CalmQueue(popped, replies, fd);
    CalmThen(conns, popped, conns', fd);
  }

  /** The decision for the line has been carried out. */
  ghost predicate Answered(s: State, fd: int, line: string, order: seq<int>, s': State, replies: seq<Out>)
    requires fd in s.clients
  {
    forall key: Key :: Turned(key, line) ==> Handled(s, fd, Decide(s, fd, Parse(line)), order, s', replies)
  }

  lemma Executed(password: string, log: seq<Event>, s: State, conns: Conns, fd: int, order: seq<int>,
                 s': State, replies: seq<Out>, conns': Conns)
    requires Logged(password, log, s, conns) && AllSettled(conns, {fd}) && fd in conns && fd in s.clients
    requires Cut(conns[fd].recv) < |conns[fd].recv| && NoNewline(FirstOf(conns[fd]))
    requires Answered(s, fd, FirstOf(conns[fd]), order, s', replies)
    requires conns' == Queue(conns[fd := Popped(conns[fd])], replies)
    ensures Logged(password, log + [Command(fd, FirstOf(conns[fd]), order)], s', conns')
    ensures AllSettled(conns', {fd}) && conns'.Keys == conns.Keys && Progress(conns[fd], conns'[fd])
    ensures Calm(conns, conns', fd)
  {
    ExecutedCalm(conns, fd, replies, conns');
    assert Turned(Key, FirstOf(conns[fd]));
    OpenHandled(s, fd, Decide(s, fd, Parse(FirstOf(conns[fd]))), order, s', replies);
    CommandLogged(password, log, s, conns, fd, FirstOf(conns[fd]), order, conns');
  }

  lemma QuitDecided(s: State, fd: int, line: string)
    requires fd in s.clients
    ensures Decide(s, fd, Parse(line)).Quit? <==> IsQuit(line)
  {
  }

  /** When no complete line is left, the buffer is the bounded residue. */
  lemma AtRest(conns: Conns, fd: int, residue: string)
    requires fd in conns && AllSettled(conns, {fd}) && Cut(conns[fd].recv) == |conns[fd].recv|
    requires residue == Residue(conns[fd].recv) && |residue| <= MAX_RESIDUE
    ensures AllSettled(conns, {})
  {
    CutClean(conns[fd].recv);
  }

  lemma PolledWired(listenFd: int, p: seq<PollFd>, polled: seq<PollFd>, conns: Conns)
    requires Wired(listenFd, p, conns) && |polled| == |p|
    requires forall j :: 0 <= j < |p| ==> polled[j].fd == p[j].fd && polled[j].events == p[j].events
    ensures Wired(listenFd, polled, conns)
  {
    OpenWired(listenFd, p, conns);
    forall f | f in conns ensures Watched(polled, f) {
      var i := WatchedAt(listenFd, p, conns, f);
      assert polled[i].fd == f;
    }
  }

  lemma Entries(listenFd: int, p: seq<PollFd>, conns: Conns)
    requires Wired(listenFd, p, conns)
    ensures |p| > 0 && p[0].fd == listenFd && DistinctFds(Shape(p))
    ensures forall k :: 1 <= k < |p| ==> Shape(p)[k].0 in conns
  {
    OpenWired(listenFd, p, conns);
  }

  lemma ClientEntry(listenFd: int, p: seq<PollFd>, conns: Conns, i: nat)
    requires Wired(listenFd, p, conns) && 1 <= i < |p|
    ensures p[i].fd in conns && p[i].fd != listenFd && DistinctFds(Shape(p))
  {
    OpenWired(listenFd, p, conns);
  }

  lemma NextEntry(listenFd: int, p: seq<PollFd>, conns: Conns, i: nat)
    requires Wired(listenFd, p, conns) && i < |p|
    ensures i == 0 <==> p[i].fd == listenFd
  {
    OpenWired(listenFd, p, conns);
  }

  lemma NeverListening(listenFd: int, p: seq<PollFd>, conns: Conns)
    requires Wired(listenFd, p, conns)
    ensures listenFd !in conns
  {
    OpenWired(listenFd, p, conns);
    if listenFd in conns {
      var i := WatchedAt(listenFd, p, conns, listenFd);
    }
  }
}
