/** Command execution on the object graph (src/b/CommandDispatcher.cpp and
    src/b/ChannelCommandHandler.cpp). Every handler is proved to do what Model.Decide says: the
    same state change and the same replies, in the order in which it walked the members. */
module Dispatcher {
  import opened Sealing
  import opened IrcText
  import opened Wire
  import opened Modes
  import opened Model
  import opened Health
  import G = ServerGraph
  import opened ServerStates

  datatype CommandResult = CommandResult(replies: seq<Out>, shouldDisconnect: bool)

  /** `eff` turned `s` into `s'` and produced `replies`, walking the members in `order`. */
  ghost predicate Handled(s: State, fd: int, eff: Effect, order: seq<int>, s': State, replies: seq<Out>)
    requires fd in s.clients
  {
    forall key: Key :: Turned(key, eff) ==>
      Enumerates(order, Audience(s, fd, eff)) && s' == Apply(s, fd, eff) && replies == Emit(s, fd, eff, order)
  }

  lemma OpenHandled(s: State, fd: int, eff: Effect, order: seq<int>, s': State, replies: seq<Out>)
    requires fd in s.clients && Handled(s, fd, eff, order, s', replies)
    ensures Enumerates(order, Audience(s, fd, eff)) && s' == Apply(s, fd, eff) && replies == Emit(s, fd, eff, order)
  {
    assert Turned(Key, eff);
  }

  lemma NothingToDo(s: State, fd: int, eff: Effect)
    requires fd in s.clients && (eff.Ignore? || eff.Quit? || eff.Heartbeat?)
    ensures Handled(s, fd, eff, [], s, [])
  {
  }

  /** An error reply changes nothing. */
  lemma Replied(s: State, fd: int, line: Line)
    requires fd in s.clients
    ensures Handled(s, fd, Reply(line), [], s, [Out(fd, line)])
  {
  }

  /** `p` is the client on `fd`. */
  ghost predicate Speaks(st: ServerState, p: G.Ptr, fd: int)
    reads st
  {
    st.Valid() && p in st.clientStore && st.clientStore[p].fd == fd && fd in st.Abs().clients &&
    st.Abs().clients[fd] == st.clientStore[p].Abs()
  }

  /** The loop that sends one message to every listed member but `except`. */
  method AddRepliesToMembers(st: ServerState, list: seq<G.Ptr>, ghost order: seq<int>, line: Line, except: int)
    returns (replies: seq<Out>)
    requires |order| == |list|
    requires forall i :: 0 <= i < |list| ==> list[i] in st.clientStore && order[i] == st.clientStore[list[i]].fd
    ensures replies == ToAll(order, line, except)
  {
    replies := [];
    for i := 0 to |list|
      invariant replies == ToAll(order[..i], line, except)
    {
      assert order[..i + 1][..i] == order[..i];
      if st.clientStore[list[i]].fd != except { replies := replies + [Out(st.clientStore[list[i]].fd, line)]; }
    }
    assert order[..|list|] == order;
  }

  /** The member list of a NAMES reply. */
  method CollectNames(st: ServerState, q: G.Ptr, list: seq<G.Ptr>, ghost order: seq<int>) returns (names: string)
    requires st.Valid() && q in st.channelStore && |order| == |list|
    requires forall i :: 0 <= i < |list| ==> list[i] in st.clientStore && order[i] == st.clientStore[list[i]].fd
    ensures names == Names(st.Abs().clients, G.AbsChannel(st.fdToClient, st.channelStore[q]).ops, order)
  {
    ghost var clients, ops := st.Abs().clients, G.AbsChannel(st.fdToClient, st.channelStore[q]).ops;
    names := "";
    for i := 0 to |list|
      invariant names == Names(clients, ops, order[..i])
    {
      assert order[..i + 1][..i] == order[..i];
      G.MemberFacts(st.View(), list[i], q);
      NickByFd(st.View(), st.password, list[i]);
      if names != "" { names := names + " "; }
      if st.channelStore[q].IsOperator(list[i]) { names := names + "@"; }
      names := names + st.clientStore[list[i]].nick;
    }
    assert order[..|list|] == order;
  }

  lemma NickByFd(g: G.Graph, password: string, p: G.Ptr)
    requires G.Consistent(g) && p in g.clientStore
    ensures var clients := g.Abs(password).clients;
            g.clientStore[p].fd in clients && clients[g.clientStore[p].fd].nick == g.clientStore[p].nick
  {
    G.Open(g);
  }

  // ----- Registration -----------------------------------------------------------------------

  method HandlePass(fd: int, msg: Message, st: ServerState, p: G.Ptr) returns (replies: seq<Out>)
    requires Speaks(st, p, fd)
    modifies st
    ensures st.Valid()
    ensures var s := old(st.Abs()); Handled(s, fd, DecidePass(s, s.clients[fd], msg), [], st.Abs(), replies)
  {
    var client := st.clientStore[p];
    ghost var s := st.Abs();
    if !msg.HasParam(0) {
      Replied(s, fd, Err(client.Abs(), ERR_NEEDMOREPARAMS, "PASS"));
      return [Out(fd, Err(client.Abs(), ERR_NEEDMOREPARAMS, "PASS"))];
    }
    if client.registered {
      Replied(s, fd, Err(client.Abs(), ERR_ALREADYREGISTERED, ""));
      return [Out(fd, Err(client.Abs(), ERR_ALREADYREGISTERED, ""))];
    }
    if msg.Param(0) != st.password {
      Replied(s, fd, PasswordMismatch());
      return [Out(fd, PasswordMismatch())];
    }
    st.SetClient(p, client.(passOk := true));
    PassAccepted(s, fd);
    return [];
  }

  lemma PassAccepted(s: State, fd: int)
    requires fd in s.clients
    ensures Handled(s, fd, AcceptPass, [], WithClient(s, fd, s.clients[fd].(passOk := true)), [])
  {
  }

  method MaybeRegisterClient(st: ServerState, p: G.Ptr, fd: int) returns (replies: seq<Out>)
    requires Speaks(st, p, fd)
    modifies st`clientStore
    ensures st.Valid()
    ensures var s := old(st.Abs());
            st.Abs() == WithClient(s, fd, MaybeRegister(s.clients[fd])) &&
            replies == WelcomeIfNew(fd, s.clients[fd], MaybeRegister(s.clients[fd]))
  {
    var client := st.clientStore[p];
    if !client.registered && CanRegister(client.Abs()) {
      st.SetClient(p, client.(registered := true));
      return [Out(fd, Welcome(st.clientStore[p].Abs()))];
    }
    ghost var s := st.Abs();
    assert s.clients[fd := s.clients[fd]] == s.clients;
    return [];
  }

  lemma Completed(s: State, fd: int, c: Client)
    requires fd in s.clients && c.registered == s.clients[fd].registered
    ensures WithClient(WithClient(s, fd, c), fd, MaybeRegister(c)) == WithClient(s, fd, MaybeRegister(c))
    ensures WelcomeIfNew(fd, c, MaybeRegister(c)) == WelcomeIfNew(fd, s.clients[fd], MaybeRegister(c))
  {
    assert s.clients[fd := c][fd := MaybeRegister(c)] == s.clients[fd := MaybeRegister(c)];
  }

  method HandleNick(fd: int, msg: Message, st: ServerState, p: G.Ptr) returns (replies: seq<Out>)
    requires Speaks(st, p, fd)
    modifies st
    ensures st.Valid()
    ensures var s := old(st.Abs()); Handled(s, fd, DecideNick(s, fd, s.clients[fd], msg), [], st.Abs(), replies)
  {
    var client := st.clientStore[p];
    ghost var s := st.Abs();
    if !client.passOk {
      Replied(s, fd, PasswordMismatch());
      return [Out(fd, PasswordMismatch())];
    }
    if !msg.HasParam(0) {
      Replied(s, fd, Err(client.Abs(), ERR_NEEDMOREPARAMS, "NICK"));
      return [Out(fd, Err(client.Abs(), ERR_NEEDMOREPARAMS, "NICK"))];
    }
    var nick := msg.Param(0);
    var valid := IsValidNickname(nick);
    if !valid {
      Replied(s, fd, Err(client.Abs(), ERR_ERRONEUSNICKNAME, nick));
      return [Out(fd, Err(client.Abs(), ERR_ERRONEUSNICKNAME, nick))];
    }
    var ok := st.UpdateNick(p, nick);
    OnlyHolder(Holders(s, nick), fd);
    if !ok {
      Replied(s, fd, NickInUse(nick));
      return [Out(fd, NickInUse(nick))];
    }
    assert DecideNick(s, fd, s.clients[fd], msg) == TakeNick(nick);
    replies := MaybeRegisterClient(st, p, fd);
    Completed(s, fd, s.clients[fd].(nick := nick));
    TookNick(s, fd, nick);
  }

  lemma TookNick(s: State, fd: int, nick: string)
    requires fd in s.clients
    ensures var c := s.clients[fd];
            var d := MaybeRegister(c.(nick := nick));
            Handled(s, fd, TakeNick(nick), [], WithClient(s, fd, d), WelcomeIfNew(fd, c, d))
  {
  }

  lemma TookUser(s: State, fd: int, username: string, realname: string)
    requires fd in s.clients
    ensures var c := s.clients[fd];
            var d := MaybeRegister(c.(username := username, realname := realname));
            Handled(s, fd, TakeUser(username, realname), [], WithClient(s, fd, d), WelcomeIfNew(fd, c, d))
  {
  }

  lemma OnlyHolder(fds: set<int>, fd: int)
    ensures fds <= {fd} <==> fds - {fd} == {}
  {
    assert forall f <- fds :: f == fd || f in fds - {fd};
  }

  method HandleUser(fd: int, msg: Message, st: ServerState, p: G.Ptr) returns (replies: seq<Out>)
    requires Speaks(st, p, fd)
    modifies st
    ensures st.Valid()
    ensures var s := old(st.Abs()); Handled(s, fd, DecideUser(s.clients[fd], msg), [], st.Abs(), replies)
  {
    var client := st.clientStore[p];
    ghost var s := st.Abs();
    if !client.passOk {
      Replied(s, fd, PasswordMismatch());
      return [Out(fd, PasswordMismatch())];
    }
    if |msg.params| < 4 {
      Replied(s, fd, Err(client.Abs(), ERR_NEEDMOREPARAMS, "USER"));
      return [Out(fd, Err(client.Abs(), ERR_NEEDMOREPARAMS, "USER"))];
    }
    if client.registered {
      Replied(s, fd, Err(client.Abs(), ERR_ALREADYREGISTERED, ""));
      return [Out(fd, Err(client.Abs(), ERR_ALREADYREGISTERED, ""))];
    }
    st.SetClient(p, client.(username := msg.Param(0), realname := msg.Param(3)));
    replies := MaybeRegisterClient(st, p, fd);
    Completed(s, fd, s.clients[fd].(username := msg.Param(0), realname := msg.Param(3)));
    TookUser(s, fd, msg.Param(0), msg.Param(3));
  }

  // ----- Channels ---------------------------------------------------------------------------

  method HandleJoin(fd: int, msg: Message, st: ServerState, p: G.Ptr) returns (replies: seq<Out>, ghost order: seq<int>)
    requires Speaks(st, p, fd)
    modifies st
    ensures st.Valid()
    ensures var s := old(st.Abs()); Handled(s, fd, DecideJoin(s, fd, s.clients[fd], msg), order, st.Abs(), replies)
  {
    var client := st.clientStore[p];
    order := [];
    if !client.registered { replies := [Out(fd, Err(client.Abs(), ERR_NOTREGISTERED, ""))]; return; }
    if !msg.HasParam(0) { replies := [Out(fd, Err(client.Abs(), ERR_NEEDMOREPARAMS, "JOIN"))]; return; }
    var name := msg.Param(0);
    var valid := IsValidChannelName(name);
    if !valid { replies := [Out(fd, Err(client.Abs(), ERR_NOSUCHCHANNEL, name))]; return; }
    var q := st.GetChannel(name);
    if q != G.NULL {
      var ch := st.channelStore[q];
      G.MemberFacts(st.View(), p, q);
      G.MemberCount(st.View(), q);
      if p !in ch.members {
        if ch.modes.inviteOnly && p !in ch.invited {
          replies := [Out(fd, Err(client.Abs(), ERR_INVITEONLYCHAN, name))];
          return;
        }
        if ch.modes.hasKey && (!msg.HasParam(1) || msg.Param(1) != ch.modes.key) {
          replies := [Out(fd, Err(client.Abs(), ERR_BADCHANNELKEY, name))];
          return;
        }
        if ch.modes.limit >= 0 && |ch.members| >= ch.modes.limit {
          replies := [Out(fd, Err(client.Abs(), ERR_CHANNELISFULL, name))];
          return;
        }
      }
    }
    assert DecideJoin(st.Abs(), fd, client.Abs(), msg) == Enter(name);
    replies, order := EnterChannel(fd, name, st, p);
  }

  /** The part of JOIN after the gates. */
  method EnterChannel(fd: int, name: string, st: ServerState, p: G.Ptr)
    returns (replies: seq<Out>, ghost order: seq<int>)
    requires Speaks(st, p, fd)
    modifies st
    ensures st.Valid()
    ensures Handled(old(st.Abs()), fd, Enter(name), order, st.Abs(), replies)
  {
    ghost var s := st.Abs();
    var c := st.clientStore[p].Abs();
    var q := st.AddClientToChannel(p, name);
    G.ByName(st.View(), Fold(name));
    ghost var ch := G.AbsChannel(st.fdToClient, st.channelStore[q]);
    assert Chan(AddMember(s, fd, name), name) == ch;
    var list;
    list, order := st.GetMembers(q);
    replies := AddRepliesToMembers(st, list, order, ChannelLine(c, "JOIN", name), -1);
    replies := replies + [Out(fd, TopicReply(c, name, st.channelStore[q].topic))];
    var names := CollectNames(st, q, list, order);
    replies := replies + [Out(fd, Numeric("353", ReplyTarget(c), "= " + st.channelStore[q].name, names))];
    replies := replies + [Out(fd, Err(c, RPL_ENDOFNAMES, name))];
    EnterHandled(s, fd, name, order);
  }

  lemma EnterHandled(s: State, fd: int, name: string, order: seq<int>)
    requires fd in s.clients && Enumerates(order, Chan(AddMember(s, fd, name), name).members)
    ensures var c, ch := s.clients[fd], Chan(AddMember(s, fd, name), name);
            Handled(s, fd, Enter(name), order, AddMember(s, fd, name),
              ToAll(order, ChannelLine(c, "JOIN", name), -1) + [Out(fd, TopicReply(c, name, ch.topic))] +
              [Out(fd, NamesLine(c, s.clients, ch, order))] + [Out(fd, Err(c, RPL_ENDOFNAMES, name))])
  {
    EnteredMembers(s, fd, name);
  }

  lemma EnteredMembers(s: State, fd: int, name: string)
    ensures Chan(AddMember(s, fd, name), name).members == Audience(s, fd, Enter(name))
    ensures AddMember(s, fd, name).clients == s.clients
  {
  }

  method HandlePart(fd: int, msg: Message, st: ServerState, p: G.Ptr) returns (replies: seq<Out>, ghost order: seq<int>)
    requires Speaks(st, p, fd)
    modifies st
    ensures st.Valid()
    ensures var s := old(st.Abs()); Handled(s, fd, DecidePart(s, fd, s.clients[fd], msg), order, st.Abs(), replies)
  {
    var c := st.clientStore[p].Abs();
    order := [];
    if !c.registered { replies := [Out(fd, Err(c, ERR_NOTREGISTERED, ""))]; return; }
    if !msg.HasParam(0) { replies := [Out(fd, Err(c, ERR_NEEDMOREPARAMS, "PART"))]; return; }
    var name := msg.Param(0);
    var valid := IsValidChannelName(name);
    if !valid { replies := [Out(fd, Err(c, ERR_NOSUCHCHANNEL, name))]; return; }
    var q := st.GetChannel(name);
    if q == G.NULL { replies := [Out(fd, Err(c, ERR_NOSUCHCHANNEL, name))]; return; }
    G.MemberFacts(st.View(), p, q);
    if p !in st.channelStore[q].members { replies := [Out(fd, Err(c, ERR_NOTONCHANNEL, name))]; return; }
    var list;
    list, order := st.GetMembers(q);
    replies := AddRepliesToMembers(st, list, order, ChannelLine(c, "PART", name), -1);
    st.RemoveClientFromChannel(p, name);
  }

  // ----- Messages ---------------------------------------------------------------------------

  method HandleTextMessage(fd: int, msg: Message, st: ServerState, p: G.Ptr, command: string)
    returns (replies: seq<Out>, ghost order: seq<int>)
    requires Speaks(st, p, fd) && command in {"PRIVMSG", "NOTICE"}
    ensures var s := st.Abs(); Handled(s, fd, DecideText(s, fd, s.clients[fd], msg, command), order, s, replies)
  {
    var c := st.clientStore[p].Abs();
    var replyOnError := command == "PRIVMSG";
    order := [];
    var target, text := msg.Param(0), msg.Param(1);
    if !c.registered {
      replies := if replyOnError then [Out(fd, Err(c, ERR_NOTREGISTERED, ""))] else [];
      return;
    }
    if |msg.params| < 2 {
      replies := if replyOnError then [Out(fd, Err(c, ERR_NEEDMOREPARAMS, command))] else [];
      return;
    }
    if target != "" && target[0] == '#' {
      replies, order := TextToChannel(fd, st, p, command, msg);
    } else {
      var valid := IsValidNickname(target);
      var t := G.NULL;
      if valid { t := st.GetClientByNick(target); }
      if t == G.NULL {
        replies := if replyOnError then [Out(fd, Err(c, ERR_NOSUCHNICK, target))] else [];
        return;
      }
      replies := [Out(st.clientStore[t].fd, TextLine(c, command, target, text))];
    }
  }

  method TextToChannel(fd: int, st: ServerState, p: G.Ptr, command: string, msg: Message)
    returns (replies: seq<Out>, ghost order: seq<int>)
    requires Speaks(st, p, fd) && command in {"PRIVMSG", "NOTICE"}
    requires st.clientStore[p].registered && |msg.params| >= 2 && msg.Param(0) != "" && msg.Param(0)[0] == '#'
    ensures var s := st.Abs(); Handled(s, fd, DecideText(s, fd, s.clients[fd], msg, command), order, s, replies)
  {
    var c := st.clientStore[p].Abs();
    var replyOnError := command == "PRIVMSG";
    order := [];
    var target := msg.Param(0);
    var valid := IsValidChannelName(target);
    var q := st.GetChannel(target);
    ghost var s := st.Abs();
    if !valid || q == G.NULL {
      Complained(s, fd, Err(c, ERR_NOSUCHCHANNEL, target));
      replies := if replyOnError then [Out(fd, Err(c, ERR_NOSUCHCHANNEL, target))] else [];
      return;
    }
    G.MemberFacts(st.View(), p, q);
    if p !in st.channelStore[q].members {
      Complained(s, fd, Err(c, ERR_CANNOTSENDTOCHAN, target));
      replies := if replyOnError then [Out(fd, Err(c, ERR_CANNOTSENDTOCHAN, target))] else [];
      return;
    }
    var list;
    list, order := st.GetMembers(q);
    replies := AddRepliesToMembers(st, list, order, TextLine(c, command, target, msg.Param(1)), fd);
    assert DecideText(s, fd, c, msg, command) == RelayAll(target, TextLine(c, command, target, msg.Param(1)));
    RelayedToAll(s, fd, target, TextLine(c, command, target, msg.Param(1)), order);
  }

  lemma RelayedToAll(s: State, fd: int, name: string, line: Line, order: seq<int>)
    requires fd in s.clients && Exists(s, name) && Enumerates(order, Chan(s, name).members)
    ensures Handled(s, fd, RelayAll(name, line), order, s, ToAll(order, line, fd))
  {
  }

  /** An error is reported or, for NOTICE, passed over. */
  lemma Complained(s: State, fd: int, line: Line)
    requires fd in s.clients
    ensures Handled(s, fd, Reply(line), [], s, [Out(fd, line)]) && Handled(s, fd, Ignore, [], s, [])
  {
    Replied(s, fd, line);
    NothingToDo(s, fd, Ignore);
  }

  // ----- Operator commands ------------------------------------------------------------------

  method HandleKick(fd: int, msg: Message, st: ServerState, p: G.Ptr) returns (replies: seq<Out>, ghost order: seq<int>)
    requires Speaks(st, p, fd)
    modifies st
    ensures st.Valid()
    ensures var s := old(st.Abs()); Handled(s, fd, DecideKick(s, fd, s.clients[fd], msg), order, st.Abs(), replies)
  {
    var c := st.clientStore[p].Abs();
    order := [];
    if !c.registered { replies := [Out(fd, Err(c, ERR_NOTREGISTERED, ""))]; return; }
    if |msg.params| < 2 { replies := [Out(fd, Err(c, ERR_NEEDMOREPARAMS, "KICK"))]; return; }
    var name, nick := msg.Param(0), msg.Param(1);
    var valid := IsValidChannelName(name);
    var q := st.GetChannel(name);
    if !valid || q == G.NULL { replies := [Out(fd, Err(c, ERR_NOSUCHCHANNEL, name))]; return; }
    G.MemberFacts(st.View(), p, q);
    if p !in st.channelStore[q].members { replies := [Out(fd, Err(c, ERR_NOTONCHANNEL, name))]; return; }
    if !st.channelStore[q].IsOperator(p) { replies := [Out(fd, Err(c, ERR_CHANOPRIVSNEEDED, name))]; return; }
    var validNick := IsValidNickname(nick);
    var t := st.GetClientByNick(nick);
    if !validNick || t == G.NULL { replies := [Out(fd, Err(c, ERR_NOSUCHNICK, nick))]; return; }
    G.MemberFacts(st.View(), t, q);
    if t !in st.channelStore[q].members { replies := [Out(fd, Err(c, ERR_USERNOTINCHANNEL, name))]; return; }
    var reason := c.nick;
    if msg.HasParam(2) { reason := msg.Param(2); }
    assert DecideKick(st.Abs(), fd, c, msg) == Expel(name, st.clientStore[t].fd, KickLine(c, name, nick, reason));
    replies, order := ExpelMember(fd, st, q, t, name, KickLine(c, name, nick, reason));
  }

  method ExpelMember(fd: int, st: ServerState, q: G.Ptr, t: G.Ptr, name: string, line: Line)
    returns (replies: seq<Out>, ghost order: seq<int>)
    requires st.Valid() && fd in st.Abs().clients && t in st.clientStore && NamedChannel(st, q, name)
    modifies st
    ensures st.Valid()
    ensures Handled(old(st.Abs()), fd, Expel(name, old(st.clientStore[t].fd), line), order, st.Abs(), replies)
  {
    ghost var s, who := st.Abs(), st.clientStore[t].fd;
    var list;
    list, order := st.GetMembers(q);
    assert Exists(s, name) && Enumerates(order, Chan(s, name).members);
    replies := AddRepliesToMembers(st, list, order, line, -1);
    st.RemoveClientFromChannel(t, name);
    Expelled(s, fd, name, who, line, order);
  }

  lemma {:induction false} Expelled(s: State, fd: int, name: string, who: int, line: Line, order: seq<int>)
    requires fd in s.clients && Exists(s, name) && Enumerates(order, Chan(s, name).members)
    ensures Handled(s, fd, Expel(name, who, line), order, RemoveMember(s, who, name), ToAll(order, line, -1))
  {
  }

  lemma InvitedAbs(g: G.Graph, t: G.Ptr, ch: G.Channel)
    requires G.Consistent(g) && t in g.clientStore
    ensures var a := G.AbsChannel(g.fdToClient, ch);
            G.AbsChannel(g.fdToClient, ch.(invited := ch.invited + {t})) ==
              a.(invited := a.invited + {g.clientStore[t].fd})
  {
    G.Open(g);
    var fd, a := g.clientStore[t].fd, G.AbsChannel(g.fdToClient, ch);
    var b := G.AbsChannel(g.fdToClient, ch.(invited := ch.invited + {t}));
    assert forall f <- g.fdToClient :: g.fdToClient[f] == t <==> f == fd;
    assert b.invited == a.invited + {fd};
  }

  method HandleInvite(fd: int, msg: Message, st: ServerState, p: G.Ptr) returns (replies: seq<Out>)
    requires Speaks(st, p, fd)
    modifies st
    ensures st.Valid()
    ensures var s := old(st.Abs()); Handled(s, fd, DecideInvite(s, fd, s.clients[fd], msg), [], st.Abs(), replies)
  {
    var c := st.clientStore[p].Abs();
    if !c.registered { return [Out(fd, Err(c, ERR_NOTREGISTERED, ""))]; }
    if |msg.params| < 2 { return [Out(fd, Err(c, ERR_NEEDMOREPARAMS, "INVITE"))]; }
    var nick, name := msg.Param(0), msg.Param(1);
    var validNick := IsValidNickname(nick);
    if !validNick { return [Out(fd, Err(c, ERR_NOSUCHNICK, nick))]; }
    var valid := IsValidChannelName(name);
    if !valid { return [Out(fd, Err(c, ERR_NOSUCHCHANNEL, name))]; }
    var t := st.GetClientByNick(nick);
    if t == G.NULL { return [Out(fd, Err(c, ERR_NOSUCHNICK, nick))]; }
    var q := st.GetChannel(name);
    if q == G.NULL { return [Out(fd, Err(c, ERR_NOSUCHCHANNEL, name))]; }
    G.MemberFacts(st.View(), p, q);
    if p !in st.channelStore[q].members { return [Out(fd, Err(c, ERR_NOTONCHANNEL, name))]; }
    G.MemberFacts(st.View(), t, q);
    if t in st.channelStore[q].members { return [Out(fd, Err(c, ERR_USERONCHANNEL, nick + " " + name))]; }
    if st.channelStore[q].modes.inviteOnly && !st.channelStore[q].IsOperator(p) {
      return [Out(fd, Err(c, ERR_CHANOPRIVSNEEDED, name))];
    }
    replies := InviteClient(fd, st, p, q, t, nick, name);
  }

  method InviteClient(fd: int, st: ServerState, p: G.Ptr, q: G.Ptr, t: G.Ptr, nick: string, name: string)
    returns (replies: seq<Out>)
    requires Speaks(st, p, fd) && t in st.clientStore && q in st.channelStore && t !in st.channelStore[q].members
    requires NamedChannel(st, q, name)
    modifies st
    ensures st.Valid()
    ensures Handled(old(st.Abs()), fd, InviteIn(name, old(st.clientStore[t].fd), nick), [], st.Abs(), replies)
  {
    var c, ch := st.clientStore[p].Abs(), st.channelStore[q];
    var to := st.clientStore[t].fd;
    InvitedAbs(st.View(), t, ch);
    Invitees(st.View(), q);
    G.ByName(st.View(), Fold(name));
    st.SetChannel(q, ch.(invited := ch.invited + {t}));
    return [Out(fd, Inviting(c, nick, name)), Out(to, InviteLine(c, nick, name))];
  }

  lemma Invitees(g: G.Graph, q: G.Ptr)
    requires G.Consistent(g) && q in g.channelStore
    ensures forall r <- g.channelStore[q].invited :: r in g.clientStore && r !in g.channelStore[q].members
  {
    G.Open(g);
  }

  method HandleTopic(fd: int, msg: Message, st: ServerState, p: G.Ptr)
    returns (replies: seq<Out>, ghost order: seq<int>)
    requires Speaks(st, p, fd)
    modifies st
    ensures st.Valid()
    ensures var s := old(st.Abs()); Handled(s, fd, DecideTopic(s, fd, s.clients[fd], msg), order, st.Abs(), replies)
  {
    var c := st.clientStore[p].Abs();
    order := [];
    if !c.registered { replies := [Out(fd, Err(c, ERR_NOTREGISTERED, ""))]; return; }
    if !msg.HasParam(0) { replies := [Out(fd, Err(c, ERR_NEEDMOREPARAMS, "TOPIC"))]; return; }
    var name := msg.Param(0);
    var valid := IsValidChannelName(name);
    var q := st.GetChannel(name);
    if !valid || q == G.NULL { replies := [Out(fd, Err(c, ERR_NOSUCHCHANNEL, name))]; return; }
    G.MemberFacts(st.View(), p, q);
    var ch := st.channelStore[q];
    if p !in ch.members { replies := [Out(fd, Err(c, ERR_NOTONCHANNEL, name))]; return; }
    if !msg.HasParam(1) { replies := [Out(fd, TopicReply(c, name, ch.topic))]; return; }
    if ch.modes.topicRestricted && !ch.IsOperator(p) {
      replies := [Out(fd, Err(c, ERR_CHANOPRIVSNEEDED, name))];
      return;
    }
    assert DecideTopic(st.Abs(), fd, c, msg) == ChangeTopic(name, msg.Param(1));
    replies, order := StoreTopic(fd, st, p, q, name, msg.Param(1));
  }

  method StoreTopic(fd: int, st: ServerState, p: G.Ptr, q: G.Ptr, name: string, topic: string)
    returns (replies: seq<Out>, ghost order: seq<int>)
    requires Speaks(st, p, fd) && NamedChannel(st, q, name)
    modifies st
    ensures st.Valid()
    ensures Handled(old(st.Abs()), fd, ChangeTopic(name, topic), order, st.Abs(), replies)
  {
    ghost var s := st.Abs();
    var c, ch := st.clientStore[p].Abs(), st.channelStore[q];
    RecordAbs(st.fdToClient, ch, ch.(topic := topic));
    replies, order := ChangeRecord(fd, st, q, name, ch.(topic := topic), TextLine(c, "TOPIC", name, topic));
    TopicHandled(s, fd, name, topic, order);
  }

  lemma {:induction false} TopicHandled(s: State, fd: int, name: string, topic: string, order: seq<int>)
    requires fd in s.clients && Exists(s, name) && Enumerates(order, Chan(s, name).members)
    ensures Handled(s, fd, ChangeTopic(name, topic), order, WithChannel(s, name, Chan(s, name).(topic := topic)),
                    ToAll(order, TextLine(s.clients[fd], "TOPIC", name, topic), -1))
  {
  }

  /** Replaces a channel record by one with the same members and invitations and tells the members. */
  method ChangeRecord(fd: int, st: ServerState, q: G.Ptr, name: string, ch: G.Channel, line: Line)
    returns (replies: seq<Out>, ghost order: seq<int>)
    requires st.Valid() && q in st.channelStore && Fold(name) in st.channels && st.channels[Fold(name)] == q
    requires ch.name == st.channelStore[q].name && ch.invited == st.channelStore[q].invited
    requires forall r :: r in ch.members <==> r in st.channelStore[q].members
    modifies st
    ensures st.Valid() && st.Abs() == WithChannel(old(st.Abs()), name, old(G.AbsChannel(st.fdToClient, ch)))
    ensures Exists(old(st.Abs()), name) && Enumerates(order, Chan(old(st.Abs()), name).members)
    ensures replies == ToAll(order, line, -1)
  {
    Invitees(st.View(), q);
    G.ByName(st.View(), Fold(name));
    SameMembers(st.fdToClient, st.channelStore[q], ch);
    st.SetChannel(q, ch);
    var list;
    list, order := st.GetMembers(q);
    replies := AddRepliesToMembers(st, list, order, line, -1);
  }

  /** Topic and modes do not show in the sets of fds. */
  lemma RecordAbs(fdToClient: map<int, G.Ptr>, a: G.Channel, b: G.Channel)
    requires a.members == b.members && a.invited == b.invited && a.name == b.name
    ensures G.AbsChannel(fdToClient, b) == G.AbsChannel(fdToClient, a).(topic := b.topic, modes := b.modes)
  {
    var x, y := G.AbsChannel(fdToClient, a), G.AbsChannel(fdToClient, b);
    assert forall r :: a.IsOperator(r) <==> b.IsOperator(r);
    assert x.members == y.members && x.ops == y.ops && x.invited == y.invited;
  }

  lemma SameMembers(fdToClient: map<int, G.Ptr>, a: G.Channel, b: G.Channel)
    requires forall r :: r in a.members <==> r in b.members
    ensures G.AbsChannel(fdToClient, a).members == G.AbsChannel(fdToClient, b).members
  {
  }

  method HandleMode(fd: int, msg: Message, st: ServerState, p: G.Ptr) returns (replies: seq<Out>, ghost order: seq<int>)
    requires Speaks(st, p, fd)
    modifies st
    ensures st.Valid()
    ensures var s := old(st.Abs()); Handled(s, fd, DecideMode(s, fd, s.clients[fd], msg), order, st.Abs(), replies)
  {
    var c := st.clientStore[p].Abs();
    order := [];
    if !c.registered { replies := [Out(fd, Err(c, ERR_NOTREGISTERED, ""))]; return; }
    if |msg.params| < 1 { replies := [Out(fd, Err(c, ERR_NEEDMOREPARAMS, "MODE"))]; return; }
    var name := msg.Param(0);
    var valid := IsValidChannelName(name);
    var q := st.GetChannel(name);
    if !valid || q == G.NULL { replies := [Out(fd, Err(c, ERR_NOSUCHCHANNEL, name))]; return; }
    G.MemberFacts(st.View(), p, q);
    if p !in st.channelStore[q].members { replies := [Out(fd, Err(c, ERR_NOTONCHANNEL, name))]; return; }
    if |msg.params| == 1 {
      var modes, args := BuildChannelModeQuery(st.channelStore[q].modes);
      var middles := [ReplyTarget(c), name, modes] + (if args == "" then [] else [args]);
      replies := [Out(fd, Line(SERVER_NAME, "324", middles, None))];
      return;
    }
    if !st.channelStore[q].IsOperator(p) { replies := [Out(fd, Err(c, ERR_CHANOPRIVSNEEDED, name))]; return; }
    if !IsModeToken(msg.Param(1)) { replies := [Out(fd, Err(c, ERR_UNKNOWNMODE, msg.Param(1)))]; return; }
    if msg.Param(1)[1] == 'o' {
      replies, order := ApplyOperatorMode(fd, msg, st, p, q, name);
    } else {
      replies, order := ApplyChannelMode(fd, msg, st, p, q, name);
    }
  }

  /** The modes after one change of i, t, k or l, or the complaint about its argument. */
  method ChangeOfModes(c: Client, msg: Message, name: string, token: string, current: ChannelModes)
    returns (modes: ChannelModes, arg: string, complaint: Option<Line>)
    requires IsModeToken(token) && token[1] != 'o'
    ensures DecideChange(c, msg, name, token, current) ==
            if complaint.Some? then Reply(complaint.value) else ChangeModes(name, modes, token, arg)
  {
    var adding, mode := token[0] == '+', token[1];
    modes, arg, complaint := current, "", None;
    if mode == 'i' {
      modes := modes.(inviteOnly := adding);
    } else if mode == 't' {
      modes := modes.(topicRestricted := adding);
    } else if mode == 'k' {
      if adding {
        if !msg.HasParam(2) { complaint := Some(Err(c, ERR_NEEDMOREPARAMS, "MODE")); return; }
        arg := msg.Param(2);
        modes := modes.(hasKey := true, key := arg);
      } else {
        modes := modes.(hasKey := false, key := "");
      }
    } else {
      if adding {
        if !msg.HasParam(2) { complaint := Some(Err(c, ERR_NEEDMOREPARAMS, "MODE")); return; }
        arg := msg.Param(2);
        var limit := ParsePositiveLimit(arg);
        if limit.None? {
          complaint := Some(Err(c, ERR_INVALIDMODEPARAM, name + " " + token + " " + arg));
          return;
        }
        modes := modes.(limit := limit.value);
      } else {
        modes := modes.(limit := -1);
      }
    }
  }

  method StoreModes(fd: int, st: ServerState, p: G.Ptr, q: G.Ptr, name: string, modes: ChannelModes, token: string,
                    arg: string)
    returns (replies: seq<Out>, ghost order: seq<int>)
    requires Speaks(st, p, fd) && NamedChannel(st, q, name)
    modifies st
    ensures st.Valid()
    ensures Handled(old(st.Abs()), fd, ChangeModes(name, modes, token, arg), order, st.Abs(), replies)
  {
    var c, ch := st.clientStore[p].Abs(), st.channelStore[q];
    ghost var s := st.Abs();
    RecordAbs(st.fdToClient, ch, ch.(modes := modes));
    replies, order := ChangeRecord(fd, st, q, name, ch.(modes := modes), ModeLine(c, name, token, arg));
    ModesHandled(s, fd, name, modes, token, arg, order);
  }

  lemma ModesHandled(s: State, fd: int, name: string, modes: ChannelModes, token: string, arg: string, order: seq<int>)
    requires fd in s.clients && Exists(s, name) && Enumerates(order, Chan(s, name).members)
    ensures Handled(s, fd, ChangeModes(name, modes, token, arg), order,
              WithChannel(s, name, Chan(s, name).(modes := modes)),
              ToAll(order, ModeLine(s.clients[fd], name, token, arg), -1))
  {
  }

  /** MODE +/-i, t, k and l by an operator. */
  method ApplyChannelMode(fd: int, msg: Message, st: ServerState, p: G.Ptr, q: G.Ptr, name: string)
    returns (replies: seq<Out>, ghost order: seq<int>)
    requires Speaks(st, p, fd) && NamedChannel(st, q, name) && IsModeToken(msg.Param(1)) && msg.Param(1)[1] != 'o'
    modifies st
    ensures st.Valid()
    ensures var s := old(st.Abs());
            var eff := DecideChange(s.clients[fd], msg, name, msg.Param(1), Chan(s, name).modes);
            Handled(s, fd, eff, order, st.Abs(), replies)
  {
    var c, ch, token := st.clientStore[p].Abs(), st.channelStore[q], msg.Param(1);
    var modes, arg, complaint := ChangeOfModes(c, msg, name, token, ch.modes);
    order := [];
    if complaint.Some? { replies := [Out(fd, complaint.value)]; return; }
    replies, order := StoreModes(fd, st, p, q, name, modes, token, arg);
  }

  /** `q` is the channel `name`. */
  ghost predicate NamedChannel(st: ServerState, q: G.Ptr, name: string)
    reads st
  {
    Fold(name) in st.channels && st.channels[Fold(name)] == q && q in st.channelStore &&
    Exists(st.Abs(), name) && Chan(st.Abs(), name) == G.AbsChannel(st.fdToClient, st.channelStore[q])
  }

  lemma OperatorSet(g: G.Graph, t: G.Ptr, ch: G.Channel, flag: bool)
    requires G.Consistent(g) && t in g.clientStore && t in ch.members
    ensures var a, fd := G.AbsChannel(g.fdToClient, ch), g.clientStore[t].fd;
            G.AbsChannel(g.fdToClient, ch.SetOperator(t, flag)) ==
              a.(ops := if flag then a.ops + {fd} else a.ops - {fd})
  {
    G.Open(g);
    var fd, a := g.clientStore[t].fd, G.AbsChannel(g.fdToClient, ch);
    var b := G.AbsChannel(g.fdToClient, ch.SetOperator(t, flag));
    assert forall f <- g.fdToClient :: g.fdToClient[f] == t <==> f == fd;
    assert b.members == a.members;
    assert b.ops == if flag then a.ops + {fd} else a.ops - {fd};
  }

  method ApplyOperatorMode(fd: int, msg: Message, st: ServerState, p: G.Ptr, q: G.Ptr, name: string)
    returns (replies: seq<Out>, ghost order: seq<int>)
    requires Speaks(st, p, fd) && NamedChannel(st, q, name) && IsModeToken(msg.Param(1)) && msg.Param(1)[1] == 'o'
    modifies st
    ensures st.Valid()
    ensures var s := old(st.Abs());
            Handled(s, fd, DecideOp(s, s.clients[fd], msg, name, msg.Param(1)), order, st.Abs(), replies)
  {
    var c, token := st.clientStore[p].Abs(), msg.Param(1);
    order := [];
    if !msg.HasParam(2) { replies := [Out(fd, Err(c, ERR_NEEDMOREPARAMS, "MODE"))]; return; }
    var nick := msg.Param(2);
    var valid := IsValidNickname(nick);
    var t := st.GetClientByNick(nick);
    if !valid || t == G.NULL { replies := [Out(fd, Err(c, ERR_NOSUCHNICK, nick))]; return; }
    G.MemberFacts(st.View(), t, q);
    if t !in st.channelStore[q].members { replies := [Out(fd, Err(c, ERR_USERNOTINCHANNEL, name))]; return; }
    assert DecideOp(st.Abs(), c, msg, name, token) ==
           ChangeOp(name, st.clientStore[t].fd, token[0] == '+', token, nick);
    replies, order := StoreOperator(fd, st, p, q, t, name, token[0] == '+', token, nick);
  }

  method StoreOperator(fd: int, st: ServerState, p: G.Ptr, q: G.Ptr, t: G.Ptr, name: string, grant: bool, token: string,
                       nick: string) returns (replies: seq<Out>, ghost order: seq<int>)
    requires Speaks(st, p, fd) && NamedChannel(st, q, name)
    requires t in st.clientStore && t in st.channelStore[q].members
    modifies st
    ensures st.Valid()
    ensures Handled(old(st.Abs()), fd, ChangeOp(name, old(st.clientStore[t].fd), grant, token, nick), order, st.Abs(),
                    replies)
  {
    ghost var s, who := st.Abs(), st.clientStore[t].fd;
    var c := st.clientStore[p].Abs();
    OperatorSet(st.View(), t, st.channelStore[q], grant);
    replies, order :=
      ChangeRecord(fd, st, q, name, st.channelStore[q].SetOperator(t, grant), ModeLine(c, name, token, nick));
    OperatorHandled(s, fd, name, who, grant, token, nick, order);
  }

  lemma {:induction false} OperatorHandled(s: State, fd: int, name: string, who: int, grant: bool, token: string,
                                           nick: string, order: seq<int>)
    requires fd in s.clients && Exists(s, name) && Enumerates(order, Chan(s, name).members)
    ensures var ch := Chan(s, name);
            Handled(s, fd, ChangeOp(name, who, grant, token, nick), order,
                    WithChannel(s, name, ch.(ops := if grant then ch.ops + {who} else ch.ops - {who})),
                    ToAll(order, ModeLine(s.clients[fd], name, token, nick), -1))
  {
  }

  // ----- Dispatch ---------------------------------------------------------------------------

  /** One parsed command of the client on `fd`. */
  method Dispatch(fd: int, msg: Message, st: ServerState, health: ConnectionHealthMonitor, now: int)
    returns (result: CommandResult, ghost order: seq<int>)
    requires st.Valid()
    modifies st, health
    ensures st.Valid()
    ensures var s := old(st.Abs());
            if fd !in s.clients then
              st.Abs() == s && result == CommandResult([], false) && health.clients == old(health.clients)
            else
              var eff := Decide(s, fd, msg);
              Handled(s, fd, eff, order, st.Abs(), result.replies) && result.shouldDisconnect == eff.Quit? &&
              health.clients == if eff.Heartbeat? then Step(old(health.clients), PongReceived(fd, eff.token, now))
                                else old(health.clients)
  {
    var p := st.GetClientByFd(fd);
    order := [];
    result := CommandResult([], false);
    if p == G.NULL { return; }
    var replies := [];
    var verb := VerbOf(msg.command);
    if verb.PING? || verb.PONG? || verb.UNKNOWN? {
      replies := DispatchOther(fd, msg, verb, st, p, health, now);
    } else if verb.QUIT? {
      NothingToDo(st.Abs(), fd, Quit);
      result := CommandResult([], true);
    } else if verb.PASS? || verb.NICK? || verb.USER? {
      replies := DispatchRegistration(fd, msg, verb, st, p);
    } else if OnChannels(verb) {
      replies, order := DispatchChannelCommand(fd, msg, verb, st, p);
    } else {
      NothingToDo(st.Abs(), fd, Ignore);
    }
    result := result.(replies := replies);
  }

  /** The commands that leave the server state alone. */
  method DispatchOther(fd: int, msg: Message, verb: Verb, st: ServerState, p: G.Ptr, health: ConnectionHealthMonitor,
                       now: int) returns (replies: seq<Out>)
    requires Speaks(st, p, fd) && (verb.PING? || verb.PONG? || verb.UNKNOWN?)
    modifies health
    ensures var s := st.Abs();
            var eff := DecideVerb(s, fd, msg, verb);
            Handled(s, fd, eff, [], s, replies) && !eff.Quit? &&
            health.clients == if eff.Heartbeat? then Step(old(health.clients), PongReceived(fd, eff.token, now))
                              else old(health.clients)
  {
    var c := st.clientStore[p].Abs();
    ghost var s := st.Abs();
    if verb.PONG? && msg.HasParam(0) {
      NothingToDo(s, fd, Heartbeat(msg.Param(|msg.params| - 1)));
      health.MarkPongReceived(fd, msg.Param(|msg.params| - 1), now);
      return [];
    }
    var line := Err(c, ERR_UNKNOWNCOMMAND, msg.command);
    if verb.PING? {
      line := if msg.HasParam(0) then Pong(msg.Param(0)) else Err(c, ERR_NEEDMOREPARAMS, "PING");
    } else if verb.PONG? {
      line := Err(c, ERR_NEEDMOREPARAMS, "PONG");
    }
    assert DecideVerb(s, fd, msg, verb) == Reply(line);
    Replied(s, fd, line);
    return [Out(fd, line)];
  }

  method DispatchRegistration(fd: int, msg: Message, verb: Verb, st: ServerState, p: G.Ptr) returns (replies: seq<Out>)
    requires Speaks(st, p, fd) && (verb.PASS? || verb.NICK? || verb.USER?)
    modifies st
    ensures st.Valid()
    ensures var s := old(st.Abs());
            var eff := DecideVerb(s, fd, msg, verb);
            Handled(s, fd, eff, [], st.Abs(), replies) && !eff.Quit? && !eff.Heartbeat?
  {
    if verb.PASS? {
      replies := HandlePass(fd, msg, st, p);
    } else if verb.NICK? {
      replies := HandleNick(fd, msg, st, p);
    } else {
      replies := HandleUser(fd, msg, st, p);
    }
  }

  predicate OnChannels(verb: Verb) {
    verb.JOIN? || verb.PART? || verb.PRIVMSG? || verb.NOTICE? || verb.KICK? || verb.INVITE? || verb.TOPIC? || verb.MODE?
  }

  /** The middle of the dispatch chain. */
  method DispatchChannelCommand(fd: int, msg: Message, verb: Verb, st: ServerState, p: G.Ptr)
    returns (replies: seq<Out>, ghost order: seq<int>)
    requires Speaks(st, p, fd) && OnChannels(verb)
    modifies st
    ensures st.Valid()
    ensures var s := old(st.Abs());
            var eff := DecideVerb(s, fd, msg, verb);
            Handled(s, fd, eff, order, st.Abs(), replies) && !eff.Quit? && !eff.Heartbeat?
  {
    order := [];
    if verb.JOIN? {
      replies, order := HandleJoin(fd, msg, st, p);
    } else if verb.PART? {
      replies, order := HandlePart(fd, msg, st, p);
    } else if verb.PRIVMSG? {
      replies, order := HandleTextMessage(fd, msg, st, p, "PRIVMSG");
    } else if verb.NOTICE? {
      replies, order := HandleTextMessage(fd, msg, st, p, "NOTICE");
    } else {
      ghost var s := st.Abs();
      replies, order := DispatchOperatorCommand(fd, msg, verb, st, p);
      OpenCarried(s, fd, msg, verb, order, st.Abs(), replies);
    }
  }

  /** The decision for the verb has been carried out. */
  ghost predicate Carried(s: State, fd: int, msg: Message, verb: Verb, order: seq<int>, s': State, replies: seq<Out>)
    requires fd in s.clients
  {
    forall key: Key :: Turned(key, verb) ==>
      var eff := DecideVerb(s, fd, msg, verb);
      Handled(s, fd, eff, order, s', replies) && !eff.Quit? && !eff.Heartbeat?
  }

  lemma OpenCarried(s: State, fd: int, msg: Message, verb: Verb, order: seq<int>, s': State, replies: seq<Out>)
    requires fd in s.clients && Carried(s, fd, msg, verb, order, s', replies)
    ensures var eff := DecideVerb(s, fd, msg, verb);
            Handled(s, fd, eff, order, s', replies) && !eff.Quit? && !eff.Heartbeat?
  {
    assert Turned(Key, verb);
  }

  lemma KickCarried(s: State, fd: int, msg: Message, order: seq<int>, s': State, replies: seq<Out>)
    requires fd in s.clients && Handled(s, fd, DecideKick(s, fd, s.clients[fd], msg), order, s', replies)
    ensures Carried(s, fd, msg, KICK, order, s', replies)
  {
  }

  lemma InviteCarried(s: State, fd: int, msg: Message, s': State, replies: seq<Out>)
    requires fd in s.clients && Handled(s, fd, DecideInvite(s, fd, s.clients[fd], msg), [], s', replies)
    ensures Carried(s, fd, msg, INVITE, [], s', replies)
  {
  }

  lemma TopicCarried(s: State, fd: int, msg: Message, order: seq<int>, s': State, replies: seq<Out>)
    requires fd in s.clients && Handled(s, fd, DecideTopic(s, fd, s.clients[fd], msg), order, s', replies)
    ensures Carried(s, fd, msg, TOPIC, order, s', replies)
  {
  }

  lemma ModeCarried(s: State, fd: int, msg: Message, order: seq<int>, s': State, replies: seq<Out>)
    requires fd in s.clients && Handled(s, fd, DecideMode(s, fd, s.clients[fd], msg), order, s', replies)
    ensures Carried(s, fd, msg, MODE, order, s', replies)
  {
  }

  method DispatchOperatorCommand(fd: int, msg: Message, verb: Verb, st: ServerState, p: G.Ptr)
    returns (replies: seq<Out>, ghost order: seq<int>)
    requires Speaks(st, p, fd) && (verb.KICK? || verb.INVITE? || verb.TOPIC? || verb.MODE?)
    modifies st
    ensures st.Valid() && Carried(old(st.Abs()), fd, msg, verb, order, st.Abs(), replies)
  {
    ghost var s := st.Abs();
    order := [];
    if verb.KICK? {
      replies, order := HandleKick(fd, msg, st, p);
      KickCarried(s, fd, msg, order, st.Abs(), replies);
    } else if verb.INVITE? {
      replies := HandleInvite(fd, msg, st, p);
      InviteCarried(s, fd, msg, st.Abs(), replies);
    } else if verb.TOPIC? {
      replies, order := HandleTopic(fd, msg, st, p);
      TopicCarried(s, fd, msg, order, st.Abs(), replies);
    } else {
      replies, order := HandleMode(fd, msg, st, p);
      ModeCarried(s, fd, msg, order, st.Abs(), replies);
    }
  }
}
