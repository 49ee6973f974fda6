/** Runs of the server state: what happened, what it led to and what each client was told. */
module Runs {
  import opened IrcText
  import opened Wire
  import opened Framing
  import opened Model
  import opened Soundness

  /** `line` is a line popped from the sender's connection; `order` is the order in which the
      member map (or, for a disconnect, the set of peers) happened to be walked. */
  datatype Event =
    | Connect(fd: int, host: string)
    | Command(fd: int, line: string, order: seq<int>)
    | Disconnect(fd: int, reason: string, order: seq<int>)

  /** What a command event asks for. */
  function Asks(e: Event): Verb
    requires e.Command?
  {
    VerbOf(Parse(e.line).command)
  }

  /** What the operating system and the event loop guarantee about the next event. */
  ghost predicate Enabled(s: State, e: Event) {
    match e
    case Connect(fd, host) => fd >= 0 && fd !in s.clients && SpaceFree(host) && NoNewline(host)
    case Command(fd, line, order) =>
      fd in s.clients && NoNewline(line) && Enumerates(order, Audience(s, fd, Decide(s, fd, Parse(line))))
    case Disconnect(fd, reason, order) =>
      fd in s.clients && NoNewline(reason) && Enumerates(order, Peers(s, fd))
  }

  ghost function Next(s: State, e: Event): State {
    match e
    case Connect(fd, host) => WithClient(s, fd, Client("", "", "", host, false, false))
    case Command(fd, line, _) => if fd in s.clients then Apply(s, fd, Decide(s, fd, Parse(line))) else s
    case Disconnect(fd, _, _) => Erase(s, fd)
  }

  ghost function Outputs(s: State, e: Event): seq<Out> {
    match e
    case Connect(_, _) => []
    case Command(fd, line, order) =>
      if fd in s.clients then Emit(s, fd, Decide(s, fd, Parse(line)), order) else []
    case Disconnect(fd, reason, order) =>
      if fd in s.clients then ToAll(order, QuitLine(s.clients[fd], reason), fd) else []
  }

  function Init(password: string): State { State(password, map[], map[]) }

  ghost function Exec(s: State, log: seq<Event>): State {
    if log == [] then s else Next(Exec(s, log[..|log| - 1]), log[|log| - 1])
  }

  ghost predicate ValidLog(s: State, log: seq<Event>) {
    log == [] || (ValidLog(s, log[..|log| - 1]) && Enabled(Exec(s, log[..|log| - 1]), log[|log| - 1]))
  }

  /** A run can be cut anywhere: what follows is a run from the state reached. */
  lemma {:induction false} RunSplit(s: State, a: seq<Event>, b: seq<Event>)
    ensures Exec(s, a + b) == Exec(Exec(s, a), b)
    ensures ValidLog(s, a + b) <==> ValidLog(s, a) && ValidLog(Exec(s, a), b)
  {
    if b == [] {
      assert a + b == a;
    } else {
      var front := b[..|b| - 1];
      assert (a + b)[..|a + b| - 1] == a + front && (a + b)[|a + b| - 1] == b[|b| - 1];
      RunSplit(s, a, front);
    }
  }

  /** The part of `outs` meant for `fd`, in order. */
  function ToFd(outs: seq<Out>, fd: int): seq<Line> {
    if outs == [] then []
    else
      ToFd(outs[..|outs| - 1], fd) + if outs[|outs| - 1].fd == fd then [outs[|outs| - 1].line] else []
  }

  /** Everything addressed to `fd` since it was last accepted. */
  ghost function Addressed(s: State, log: seq<Event>, fd: int): seq<Line> {
    if log == [] then []
    else
      var front, e := log[..|log| - 1], log[|log| - 1];
      if e.fd == fd && !e.Command? then []
      else Addressed(s, front, fd) + ToFd(Outputs(Exec(s, front), e), fd)
  }

  /** The lines `fd` had executed since it was last accepted. */
  function Issued(log: seq<Event>, fd: int): seq<string> {
    if log == [] then []
    else
      var front, e := log[..|log| - 1], log[|log| - 1];
      if e.fd != fd then Issued(front, fd) else if e.Command? then Issued(front, fd) + [e.line] else []
  }

  lemma LogAppend(s: State, log: seq<Event>, e: Event, fd: int)
    ensures Exec(s, log + [e]) == Next(Exec(s, log), e)
    ensures ValidLog(s, log + [e]) <==> ValidLog(s, log) && Enabled(Exec(s, log), e)
    ensures Addressed(s, log + [e], fd) ==
            if e.fd == fd && !e.Command? then []
            else Addressed(s, log, fd) + ToFd(Outputs(Exec(s, log), e), fd)
    ensures Issued(log + [e], fd) ==
            if e.fd != fd then Issued(log, fd) else if e.Command? then Issued(log, fd) + [e.line] else []
  {
    assert (log + [e])[..|log|] == log;
  }

  // ----- Fan-out ----------------------------------------------------------------------------

  lemma {:induction false} ToFdConcat(a: seq<Out>, b: seq<Out>, fd: int)
    ensures ToFd(a + b, fd) == ToFd(a, fd) + ToFd(b, fd)
  {
    if b == [] {
      assert a + b == a;
    } else {
      assert (a + b)[..|a + b| - 1] == a + b[..|b| - 1];
      ToFdConcat(a, b[..|b| - 1], fd);
    }
  }

  lemma {:induction false} ToFdOne(o: Out, f: int)
    ensures ToFd([o], f) == if o.fd == f then [o.line] else []
  {
    assert [o][..0] == [] && ToFd([], f) == [];
  }

  lemma {:induction false} ToFdMember(outs: seq<Out>, fd: int, l: Line)
    ensures l in ToFd(outs, fd) <==> Out(fd, l) in outs
  {
    if outs != [] {
      ToFdMember(outs[..|outs| - 1], fd, l);
      assert outs == outs[..|outs| - 1] + [outs[|outs| - 1]];
    }
  }

  lemma {:induction false} ToAllMember(order: seq<int>, line: Line, except: int, o: Out)
    ensures o in ToAll(order, line, except) <==> o.line == line && o.fd in order && o.fd != except
  {
    if order != [] {
      ToAllMember(order[..|order| - 1], line, except, o);
      assert order == order[..|order| - 1] + [order[|order| - 1]];
    }
  }

  /** A fan-out over a list without repetitions reaches each listed client exactly once. */
  lemma {:induction false} ToAllOnce(order: seq<int>, line: Line, except: int, fd: int)
    requires forall i, j :: 0 <= i < j < |order| ==> order[i] != order[j]
    ensures ToFd(ToAll(order, line, except), fd) == if fd in order && fd != except then [line] else []
  {
    if order != [] {
      var front, last := order[..|order| - 1], order[|order| - 1];
      ToAllOnce(front, line, except, fd);
      assert order == front + [last];
      var tail := if last != except then [Out(last, line)] else [];
      ToFdConcat(ToAll(front, line, except), tail, fd);
      if fd == last {
        assert fd !in front;
      }
      assert ToFd(tail, fd) == if fd == last && last != except then [line] else [] by {
        if tail != [] { assert ToFd(tail[..0], fd) == []; }
      }
    }
  }

  // ----- Every event keeps the state sound and speaks only to live clients ------------------

  lemma NextSound(s: State, e: Event)
    requires Sound(s) && Enabled(s, e)
    ensures Sound(Next(s, e))
  {
    match e
    case Connect(fd, host) =>
      var s' := Next(s, e);
      assert DistinctNicks(s'.clients);
      forall k | k in s'.channels ensures GoodChannel(s'.clients, k, s'.channels[k]) {
        assert GoodChannel(s.clients, k, s.channels[k]);
      }
    case Command(fd, line, _) =>
      ParsedFromLine(line);
      DecideAllowed(s, fd, Parse(line));
      ApplySound(s, fd, Parse(line), Decide(s, fd, Parse(line)));
    case Disconnect(fd, _, _) => EraseSound(s, fd);
  }

  /** Every reachable state is sound, whatever the events. */
  lemma {:induction false} RunSound(s: State, log: seq<Event>)
    requires Sound(s) && ValidLog(s, log)
    ensures Sound(Exec(s, log))
  {
    if log != [] {
      RunSound(s, log[..|log| - 1]);
      NextSound(Exec(s, log[..|log| - 1]), log[|log| - 1]);
    }
  }

  ghost predicate GoodOuts(clients: map<int, Client>, outs: seq<Out>, welcome: bool) {
    forall o <- outs :: o.fd in clients && CleanLine(o.line) && (!welcome ==> o.line.command != "001")
  }

  lemma ToAllGood(clients: map<int, Client>, order: seq<int>, line: Line, except: int)
    requires forall f <- order :: f in clients
    requires CleanLine(line) && line.command != "001"
    ensures GoodOuts(clients, ToAll(order, line, except), false)
  {
    forall o | o in ToAll(order, line, except)
      ensures o.fd in clients && CleanLine(o.line) && o.line.command != "001"
    {
      ToAllMember(order, line, except, o);
    }
  }

  lemma {:induction false} ToAllPlain(clients: map<int, Client>, order: seq<int>, line: Line, except: int)
    requires PlainReply(line) && forall f <- order :: f in clients
    ensures GoodOuts(clients, ToAll(order, line, except), false)
  {
    OpenPlain(line);
    ToAllGood(clients, order, line, except);
  }

  lemma {:induction false} NamesClean(clients: map<int, Client>, ops: set<int>, order: seq<int>)
    requires forall f <- clients :: GoodClient(clients[f])
    ensures NoNewline(Names(clients, ops, order))
  {
    if order != [] {
      var f := order[|order| - 1];
      NamesClean(clients, ops, order[..|order| - 1]);
      if f in clients && clients[f].nick != "" { NickIsPlain(clients[f].nick); }
    }
  }

  predicate Registers(eff: Effect) { eff.TakeNick? || eff.TakeUser? }

  lemma NamesLineGood(c: Client, clients: map<int, Client>, ch: Channel, order: seq<int>)
    requires GoodClient(c) && NoNewline(ch.name) && forall f <- clients :: GoodClient(clients[f])
    ensures PlainReply(NamesLine(c, clients, ch, order))
  {
    TargetClean(c);
    NamesClean(clients, ch.ops, order);
  }

  lemma {:induction false} EnteredClean(s: State, fd: int, name: string)
    requires Sound(s) && ValidChannel(name)
    ensures var ch := Chan(AddMember(s, fd, name), name); NoNewline(ch.topic) && NoNewline(ch.name)
  {
    ChannelMiddle(name);
    if Exists(s, name) {
      assert GoodChannel(s.clients, Fold(name), Chan(s, name));
      ChannelMiddle(Chan(s, name).name);
    }
  }

  lemma {:induction false} EnterGood(s: State, fd: int, name: string, order: seq<int>)
    requires Sound(s) && fd in s.clients && ValidChannel(name)
    requires forall f <- order :: f in s.clients
    ensures GoodOuts(s.clients, Emit(s, fd, Enter(name), order), false)
  {
    ChannelMiddle(name);
    EnteredClean(s, fd, name);
    EnterLinesGood(s, fd, name, Chan(AddMember(s, fd, name), name), order);
  }

  lemma EnterLinesGood(s: State, fd: int, name: string, ch: Channel, order: seq<int>)
    requires Sound(s) && fd in s.clients && NoNewline(name) && NoNewline(ch.topic) && NoNewline(ch.name)
    requires forall f <- order :: f in s.clients
    ensures var c := s.clients[fd];
            GoodOuts(s.clients, ToAll(order, ChannelLine(c, "JOIN", name), -1) +
              [Out(fd, TopicReply(c, name, ch.topic)), Out(fd, NamesLine(c, s.clients, ch, order)),
               Out(fd, Err(c, RPL_ENDOFNAMES, name))], false)
  {
    var c := s.clients[fd];
    ChannelLineClean(c, "JOIN", name);
    ToAllPlain(s.clients, order, ChannelLine(c, "JOIN", name), -1);
    TopicReplyClean(c, name, ch.topic);
    NamesLineGood(c, s.clients, ch, order);
    ErrClean(c, RPL_ENDOFNAMES, name);
    ThreeMoreGood(s.clients, ToAll(order, ChannelLine(c, "JOIN", name), -1), fd, TopicReply(c, name, ch.topic),
      NamesLine(c, s.clients, ch, order), Err(c, RPL_ENDOFNAMES, name));
  }

  lemma ThreeMoreGood(clients: map<int, Client>, outs: seq<Out>, fd: int, a: Line, b: Line, c: Line)
    requires GoodOuts(clients, outs, false) && fd in clients && PlainReply(a) && PlainReply(b) && PlainReply(c)
    ensures GoodOuts(clients, outs + [Out(fd, a), Out(fd, b), Out(fd, c)], false)
  {
    OpenPlain(a);
    OpenPlain(b);
    OpenPlain(c);
  }

  lemma {:induction false} EmitGood(s: State, fd: int, msg: Message, eff: Effect, order: seq<int>)
    requires Sound(s) && fd in s.clients && Allowed(s, fd, msg, eff)
    requires Enumerates(order, Audience(s, fd, eff))
    ensures GoodOuts(s.clients, Emit(s, fd, eff, order), Registers(eff))
  {
    AudienceLive(s, fd, eff);
    if eff.Enter? {
      EnterGood(s, fd, eff.name, order);
    } else if eff.InviteIn? {
      InviteGood(s, fd, msg, eff, order);
    } else if Registers(eff) {
      RegisteringGood(s, fd, eff, order);
    } else if Announces(eff) {
      AnnouncementGood(s, fd, msg, eff, order);
    } else {
      AnswerGood(s, fd, msg, eff, order);
    }
  }

  lemma {:induction false} AnswerGood(s: State, fd: int, msg: Message, eff: Effect, order: seq<int>)
    requires fd in s.clients && Allowed(s, fd, msg, eff)
    requires !eff.Enter? && !eff.InviteIn? && !Registers(eff) && !Announces(eff)
    ensures GoodOuts(s.clients, Emit(s, fd, eff, order), false)
  {
    if eff.Reply? || eff.RelayOne? { OpenPlain(eff.line); }
  }

  lemma {:induction false} RegisteringGood(s: State, fd: int, eff: Effect, order: seq<int>)
    requires Sound(s) && fd in s.clients && Registers(eff)
    requires GoodClient(Registered(s, fd, eff))
    ensures GoodOuts(s.clients, Emit(s, fd, eff, order), true)
  {
    WelcomeGood(s, fd, Registered(s, fd, eff));
  }

  function Registered(s: State, fd: int, eff: Effect): Client
    requires fd in s.clients && Registers(eff)
  {
    if eff.TakeNick? then MaybeRegister(s.clients[fd].(nick := eff.nick))
    else MaybeRegister(s.clients[fd].(username := eff.username, realname := eff.realname))
  }

  lemma {:induction false} InviteGood(s: State, fd: int, msg: Message, eff: Effect, order: seq<int>)
    requires Sound(s) && fd in s.clients && Allowed(s, fd, msg, eff) && eff.InviteIn?
    ensures GoodOuts(s.clients, Emit(s, fd, eff, order), false)
  {
    ChannelMiddle(eff.name);
    NickMiddle(eff.nick);
    InviteLinesClean(s.clients[fd], eff.nick, eff.name);
    OpenPlain(Inviting(s.clients[fd], eff.nick, eff.name));
    OpenPlain(InviteLine(s.clients[fd], eff.nick, eff.name));
  }

  lemma {:induction false} InviteLinesClean(c: Client, nick: string, name: string)
    requires GoodClient(c) && NoNewline(nick) && NoNewline(name)
    ensures PlainReply(Inviting(c, nick, name)) && PlainReply(InviteLine(c, nick, name))
  {
    TargetClean(c);
  }

  lemma {:induction false} ChannelLineClean(c: Client, command: string, name: string)
    requires GoodClient(c) && command in {"JOIN", "PART"} && NoNewline(name)
    ensures PlainReply(ChannelLine(c, command, name))
  {
    TargetClean(c);
  }

  lemma {:induction false} TopicLineClean(c: Client, name: string, topic: string)
    requires GoodClient(c) && NoNewline(name) && NoNewline(topic)
    ensures PlainReply(TextLine(c, "TOPIC", name, topic))
  {
    TargetClean(c);
  }

  lemma {:induction false} ModeLineClean(c: Client, name: string, token: string, arg: string)
    requires GoodClient(c) && NoNewline(name) && NoNewline(token) && NoNewline(arg)
    ensures PlainReply(ModeLine(c, name, token, arg))
  {
    TargetClean(c);
  }

  /** Effects whose output is one line for the members of a channel. */
  predicate Announces(eff: Effect) {
    eff.Depart? || eff.RelayAll? || eff.Expel? || eff.ChangeTopic? || eff.ChangeModes? || eff.ChangeOp?
  }

  lemma AnnouncementGood(s: State, fd: int, msg: Message, eff: Effect, order: seq<int>)
    requires Sound(s) && fd in s.clients && Allowed(s, fd, msg, eff) && Announces(eff)
    requires forall f <- order :: f in s.clients
    ensures GoodOuts(s.clients, Emit(s, fd, eff, order), false)
  {
    var c := s.clients[fd];
    match eff
    case Depart(name) =>
      ChannelMiddle(name);
      ChannelLineClean(c, "PART", name);
      ToAllPlain(s.clients, order, ChannelLine(c, "PART", name), -1);
    case RelayAll(name, line) => ToAllPlain(s.clients, order, line, fd);
    case Expel(name, who, line) => ToAllPlain(s.clients, order, line, -1);
    case ChangeTopic(name, topic) =>
      ChannelMiddle(name);
      TopicLineClean(c, name, topic);
      ToAllPlain(s.clients, order, TextLine(c, "TOPIC", name, topic), -1);
    case ChangeModes(name, modes, token, arg) =>
      ChannelMiddle(name);
      ModeLineClean(c, name, token, arg);
      ToAllPlain(s.clients, order, ModeLine(c, name, token, arg), -1);
    case ChangeOp(name, who, grant, token, nick) =>
      ChannelMiddle(name);
      ModeLineClean(c, name, token, nick);
      ToAllPlain(s.clients, order, ModeLine(c, name, token, nick), -1);
  }

  lemma WelcomeGood(s: State, fd: int, c: Client)
    requires fd in s.clients && GoodClient(c)
    ensures GoodOuts(s.clients, WelcomeIfNew(fd, s.clients[fd], c), true)
  {
    TargetClean(c);
    if c.nick != "" { NickIsPlain(c.nick); }
  }

  lemma AudienceLive(s: State, fd: int, eff: Effect)
    requires Sound(s) && fd in s.clients
    ensures Audience(s, fd, eff) <= s.clients.Keys
  {
    forall k | k in s.channels ensures s.channels[k].members <= s.clients.Keys {
      assert GoodChannel(s.clients, k, s.channels[k]);
    }
  }

  lemma PeersLive(s: State, fd: int)
    requires Sound(s)
    ensures Peers(s, fd) <= s.clients.Keys - {fd}
  {
    forall k | k in s.channels ensures s.channels[k].members <= s.clients.Keys {
      assert GoodChannel(s.clients, k, s.channels[k]);
    }
  }

  ghost predicate Welcomes(s: State, e: Event) {
    e.Command? && e.fd in s.clients && Registers(Decide(s, e.fd, Parse(e.line)))
  }

  /** Every message goes to a client that is still live after the event, and holds no newline
      but its final one. */
  lemma OutputsGood(s: State, e: Event)
    requires Sound(s) && Enabled(s, e)
    ensures GoodOuts(Next(s, e).clients, Outputs(s, e), Welcomes(s, e))
  {
    match e
    case Connect(fd, host) =>
    case Command(fd, line, order) =>
      var msg := Parse(line);
      ParsedFromLine(line);
      DecideAllowed(s, fd, msg);
      EmitGood(s, fd, msg, Decide(s, fd, msg), order);
      ClientsStay(s, fd, Decide(s, fd, msg));
    case Disconnect(fd, reason, order) =>
      PeersLive(s, fd);
      TargetClean(s.clients[fd]);
      ToAllGood(s.clients - {fd}, order, QuitLine(s.clients[fd], reason), fd);
  }

  lemma ClientsStay(s: State, fd: int, eff: Effect)
    requires fd in s.clients
    ensures Apply(s, fd, eff).clients.Keys == s.clients.Keys && Apply(s, fd, eff).password == s.password
    ensures forall f <- s.clients :: f != fd ==> Apply(s, fd, eff).clients[f] == s.clients[f]
  {
  }

  /** In every run, everything addressed to a client is free of inner newlines. */
  lemma {:induction false} AddressedClean(s: State, log: seq<Event>, fd: int)
    requires Sound(s) && ValidLog(s, log)
    ensures forall l <- Addressed(s, log, fd) :: CleanLine(l)
  {
    if log != [] {
      var front, e := log[..|log| - 1], log[|log| - 1];
      AddressedClean(s, front, fd);
      RunSound(s, front);
      OutputsGood(Exec(s, front), e);
      forall l | l in ToFd(Outputs(Exec(s, front), e), fd) ensures CleanLine(l) {
        ToFdMember(Outputs(Exec(s, front), e), fd, l);
      }
    }
  }

  /** End to end: the bytes queued for a client decode to exactly one line per message
      addressed to it, in order. */
  lemma DeliveryDecodes(s: State, log: seq<Event>, fd: int)
    requires Sound(s) && ValidLog(s, log)
    ensures Lines(RenderAll(Addressed(s, log, fd))) == Bodies(Addressed(s, log, fd))
    ensures Residue(RenderAll(Addressed(s, log, fd))) == ""
  {
    AddressedClean(s, log, fd);
    DecodeRendered(Addressed(s, log, fd));
  }

  /** A disconnect erases that client and nothing else: the other clients are untouched, the
      channels with another member survive with their name, topic and modes, and their members,
      operators and invited clients are the same but for the one that is gone. */
  lemma {:induction false} DisconnectErasesOnly(s: State, fd: int, reason: string, order: seq<int>)
    requires Sound(s) && Enabled(s, Disconnect(fd, reason, order))
    ensures var t := Next(s, Disconnect(fd, reason, order));
            t.password == s.password &&
            (forall f :: f in t.clients <==> f in s.clients && f != fd) &&
            (forall f <- t.clients :: t.clients[f] == s.clients[f]) &&
            (forall k :: k in t.channels <==> k in s.channels && exists f :: f in s.channels[k].members && f != fd) &&
            forall k <- t.channels :: SameBut(s.channels[k], t.channels[k], fd)
  {
    ErasesOnly(s, fd);
  }

  lemma {:induction false} ErasesOnly(s: State, fd: int)
    requires Sound(s)
    ensures var t := Erase(s, fd);
            (forall k :: k in t.channels <==> k in s.channels && exists f :: f in s.channels[k].members && f != fd) &&
            forall k <- t.channels :: SameBut(s.channels[k], t.channels[k], fd)
  {
    forall k | k in s.channels
      ensures k in Erase(s, fd).channels <==> exists f :: f in s.channels[k].members && f != fd
      ensures k in Erase(s, fd).channels ==> SameBut(s.channels[k], Erase(s, fd).channels[k], fd)
    {
      ErasedChannel(s, fd, k);
    }
  }

  lemma {:induction false} ErasedChannel(s: State, fd: int, k: string)
    requires Sound(s) && k in s.channels
    ensures k in Erase(s, fd).channels <==> exists f :: f in s.channels[k].members && f != fd
    ensures k in Erase(s, fd).channels ==> SameBut(s.channels[k], Erase(s, fd).channels[k], fd)
  {
    assert GoodChannel(s.clients, k, s.channels[k]);
    NotAlone(s.channels[k].members, fd);
  }

  lemma {:induction false} NotAlone(members: set<int>, fd: int)
    requires members != {}
    ensures members != {fd} <==> exists f :: f in members && f != fd
  {
    if forall f :: f in members ==> f == fd {
      HasElement(members);
      assert fd in members && members == {fd};
    }
  }

  ghost predicate SameBut(before: Channel, after: Channel, fd: int) {
    after.name == before.name && after.topic == before.topic && after.modes == before.modes &&
    forall f :: (f in after.members <==> f in before.members && f != fd) &&
                (f in after.ops <==> f in before.ops && f != fd) &&
                (f in after.invited <==> f in before.invited && f != fd)
  }

  /** A disconnect tells every other client on a common channel exactly once, and nobody else. */
  lemma QuitToldOnce(s: State, fd: int, reason: string, order: seq<int>, f: int)
    requires Sound(s) && Enabled(s, Disconnect(fd, reason, order))
    ensures ToFd(Outputs(s, Disconnect(fd, reason, order)), f) ==
            if f in Peers(s, fd) then [QuitLine(s.clients[fd], reason)] else []
    ensures f in Peers(s, fd) <==>
            f != fd && exists k :: k in s.channels && fd in s.channels[k].members && f in s.channels[k].members
  {
    PeersLive(s, fd);
    ToAllOnce(order, QuitLine(s.clients[fd], reason), fd, f);
  }
}
