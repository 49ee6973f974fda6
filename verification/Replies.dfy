/** What the commands on channels and between clients send, byte by byte: which refusal when, and
    otherwise what every client gets (src/b/CommandDispatcher.cpp, src/b/ChannelCommandHandler.cpp). */
module Replies {
  import opened Sealing
  import opened IrcText
  import opened Wire
  import opened Framing
  import opened Model
  import opened Soundness
  import opened Runs
  import opened CommandTheorems
  import opened Wording

  /** The bytes an event queues for `f`. */
  ghost function Bytes(s: State, e: Event, f: int): string { RenderAll(ToFd(Outputs(s, e), f)) }

  /** Each of `fds` gets the text and nobody else gets anything. */
  ghost predicate Gets(s: State, e: Event, fds: set<int>, text: string) {
    forall f :: Bytes(s, e, f) == if f in fds then text else ""
  }

  /** Nothing happens but that the sender is told so. */
  ghost predicate Tells(s: State, e: Event, code: string, params: string, text: string)
    requires e.fd in s.clients
  {
    Next(s, e) == s && Gets(s, e, {e.fd}, FromServer(code, Addressee(s.clients[e.fd]), params, text))
  }

  // ----- From effects to bytes --------------------------------------------------------------

  lemma {:induction false} OneLine(l: Line)
    ensures RenderAll([l]) == Render(l) && RenderAll([]) == ""
  {
    assert [l][..0] == [];
    assert "" + Render(l) == Render(l);
  }

  lemma {:induction false} OneOut(s: State, e: Event, o: Out)
    requires Outputs(s, e) == [o]
    ensures Gets(s, e, {o.fd}, Render(o.line))
  {
    OneLine(o.line);
    forall f ensures Bytes(s, e, f) == if f == o.fd then Render(o.line) else "" {
      ToFdOne(o, f);
    }
  }

  lemma {:induction false} Announced(s: State, e: Event, order: seq<int>, line: Line, except: int, fds: set<int>)
    requires Outputs(s, e) == ToAll(order, line, except) && Enumerates(order, fds)
    ensures Gets(s, e, fds - {except}, Render(line))
  {
    OneLine(line);
    forall f ensures Bytes(s, e, f) == if f in fds - {except} then Render(line) else "" {
      ToAllOnce(order, line, except, f);
    }
  }

  /** What the event does is `eff`. */
  ghost predicate Does(s: State, e: Event, eff: Effect) {
    forall key: Key :: Turned(key, eff) ==> Done(s, e, eff)
  }

  ghost predicate Done(s: State, e: Event, eff: Effect) {
    e.Command? && e.fd in s.clients && Sound(s) && Next(s, e) == Apply(s, e.fd, eff) &&
    Outputs(s, e) == Emit(s, e.fd, eff, e.order) && Enumerates(e.order, Audience(s, e.fd, eff))
  }

  lemma {:induction false} OpenDoes(s: State, e: Event, eff: Effect)
    requires Does(s, e, eff)
    ensures Done(s, e, eff)
  {
    assert Turned(Key, eff);
  }

  lemma {:induction false} DoesVerb(s: State, e: Event, verb: Verb)
    requires Issues(s, e, verb) && !verb.UNKNOWN?
    ensures Does(s, e, DecideVerb(s, e.fd, Parse(e.line), verb))
  {
    Decided(s, e, verb);
    Spelled(Parse(e.line).command, verb);
  }

  lemma {:induction false} LineSent(s: State, e: Event, eff: Effect)
    requires Does(s, e, eff) && eff.Reply?
    ensures Next(s, e) == s && Gets(s, e, {e.fd}, Render(eff.line))
  {
    OpenDoes(s, e, eff);
    OneOut(s, e, Out(e.fd, eff.line));
  }

  lemma {:induction false} NumericSent(s: State, e: Event, eff: Effect, code: string, params: string, text: string)
    requires Does(s, e, eff) && e.fd in s.clients
    requires eff == Reply(Numeric(code, Addressee(s.clients[e.fd]), params, text))
    ensures Tells(s, e, code, params, text)
  {
    LineSent(s, e, eff);
    ServerBytes(code, Addressee(s.clients[e.fd]), params, text);
  }

  lemma {:induction false} ErrSent(s: State, e: Event, eff: Effect, n: Numeral, code: string, params: string,
                                   text: string)
    requires Does(s, e, eff) && Worded(n, code, text)
    requires e.fd in s.clients && eff == Reply(Err(s.clients[e.fd], n, params))
    ensures Tells(s, e, code, params, text)
  {
    NumericSent(s, e, eff, code, params, text);
  }

  /** The channel exists, so its name is valid. */
  lemma {:induction false} ValidIfExists(s: State, name: string)
    requires Sound(s) && Exists(s, name)
    ensures ValidChannel(name)
    ensures forall f <- Chan(s, name).members :: f >= 0
  {
    assert GoodChannel(s.clients, Fold(name), Chan(s, name));
    SameValidity(Chan(s, name).name, name);
  }

  lemma {:induction false} SoleHolder(s: State, nick: string)
    requires Sound(s) && Holders(s, nick) != {}
    ensures Holders(s, nick) == {Pick(Holders(s, nick))}
  {
    HolderUnique(s, nick, Pick(Holders(s, nick)));
  }

  /** One line for every member of a channel. */
  lemma {:induction false} MembersTold(s: State, e: Event, eff: Effect, name: string, line: Line)
    requires e.Command? && Does(s, e, eff) && Exists(s, name) && e.fd in s.clients
    requires Audience(s, e.fd, eff) == Chan(s, name).members && Emit(s, e.fd, eff, e.order) == ToAll(e.order, line, -1)
    ensures Gets(s, e, Chan(s, name).members, Render(line))
  {
    OpenDoes(s, e, eff);
    ValidIfExists(s, name);
    Announced(s, e, e.order, line, -1, Chan(s, name).members);
    assert Chan(s, name).members - {-1} == Chan(s, name).members;
  }

  // ----- The refusals that PART, KICK, TOPIC and MODE share ----------------------------------

  /** Registered, with enough parameters, and on the channel it names first. */
  predicate Passes(s: State, fd: int, msg: Message, count: nat)
    requires fd in s.clients
  {
    s.clients[fd].registered && |msg.params| >= count && OnChannel(s, fd, msg.Param(0))
  }

  ghost predicate GateAnswers(s: State, e: Event, msg: Message, command: string, count: nat)
    requires e.fd in s.clients
  {
    if !s.clients[e.fd].registered then Tells(s, e, "451", "", ":You have not registered")
    else if |msg.params| < count then Tells(s, e, "461", command, "Not enough parameters")
    else if !Exists(s, msg.Param(0)) then Tells(s, e, "403", msg.Param(0), "No such channel")
    else Tells(s, e, "442", msg.Param(0), "You are not on that channel")
  }

  predicate GateDecides(s: State, fd: int, msg: Message, command: string, count: nat, eff: Effect)
    requires fd in s.clients
  {
    var c := s.clients[fd];
    if !c.registered then eff == Reply(Err(c, ERR_NOTREGISTERED, ""))
    else if |msg.params| < count then eff == Reply(Err(c, ERR_NEEDMOREPARAMS, command))
    else if !Exists(s, msg.Param(0)) then eff == Reply(Err(c, ERR_NOSUCHCHANNEL, msg.Param(0)))
    else eff == Reply(Err(c, ERR_NOTONCHANNEL, msg.Param(0)))
  }

  lemma {:induction false} GateTold(s: State, e: Event, msg: Message, command: string, count: nat, eff: Effect)
    requires Does(s, e, eff) && e.fd in s.clients && GateDecides(s, e.fd, msg, command, count, eff)
    ensures GateAnswers(s, e, msg, command, count)
  {
    RegistrationWorded();
    if !s.clients[e.fd].registered {
      ErrSent(s, e, eff, ERR_NOTREGISTERED, "451", "", ":You have not registered");
    } else if |msg.params| < count {
      ErrSent(s, e, eff, ERR_NEEDMOREPARAMS, "461", command, "Not enough parameters");
    } else if !Exists(s, msg.Param(0)) {
      NamesWorded();
      ErrSent(s, e, eff, ERR_NOSUCHCHANNEL, "403", msg.Param(0), "No such channel");
    } else {
      MembersWorded();
      ErrSent(s, e, eff, ERR_NOTONCHANNEL, "442", msg.Param(0), "You are not on that channel");
    }
  }

  // ----- PART -------------------------------------------------------------------------------

  /** PART: a refusal, or every member, the leaving one included, is told. */
  lemma {:induction false} PartReplies(s: State, e: Event)
    requires Issues(s, e, PART)
    ensures var c, msg := s.clients[e.fd], Parse(e.line);
            if !Passes(s, e.fd, msg, 1) then GateAnswers(s, e, msg, "PART", 1)
            else Gets(s, e, Chan(s, msg.Param(0)).members, FromClient(c, "PART" + " " + msg.Param(0)))
  {
    var eff := DecideVerb(s, e.fd, Parse(e.line), PART);
    DoesVerb(s, e, PART);
    PartDecided(s, e.fd, Parse(e.line));
    PartTold(s, e, Parse(e.line), eff);
  }

  predicate PartDecides(s: State, fd: int, msg: Message, eff: Effect)
    requires fd in s.clients
  {
    if !Passes(s, fd, msg, 1) then GateDecides(s, fd, msg, "PART", 1, eff) else eff == Depart(msg.Param(0))
  }

  lemma {:induction false} PartDecided(s: State, fd: int, msg: Message)
    requires Sound(s) && fd in s.clients
    ensures PartDecides(s, fd, msg, DecideVerb(s, fd, msg, PART))
  {
    if Exists(s, msg.Param(0)) { ValidIfExists(s, msg.Param(0)); }
  }

  lemma {:induction false} PartTold(s: State, e: Event, msg: Message, eff: Effect)
    requires e.Command? && Does(s, e, eff) && e.fd in s.clients && PartDecides(s, e.fd, msg, eff)
    ensures if !Passes(s, e.fd, msg, 1) then GateAnswers(s, e, msg, "PART", 1)
            else Gets(s, e, Chan(s, msg.Param(0)).members, FromClient(s.clients[e.fd], "PART" + " " + msg.Param(0)))
  {
    if !Passes(s, e.fd, msg, 1) {
      GateTold(s, e, msg, "PART", 1, eff);
    } else {
      var line := ChannelLine(s.clients[e.fd], "PART", msg.Param(0));
      ChannelBytes(s.clients[e.fd], "PART", msg.Param(0));
      MembersTold(s, e, eff, msg.Param(0), line);
    }
  }

  // ----- KICK -------------------------------------------------------------------------------

  /** KICK: each refusal with its numeric; otherwise every member of the channel, the kicked one
      included, is told who was kicked by whom. */
  lemma {:induction false} KickReplies(s: State, e: Event)
    requires Issues(s, e, KICK)
    ensures KickAnswers(s, e, s.clients[e.fd], Parse(e.line))
  {
    DoesVerb(s, e, KICK);
    KickDecided(s, e.fd, Parse(e.line));
    KickTold(s, e, s.clients[e.fd], Parse(e.line), DecideVerb(s, e.fd, Parse(e.line), KICK));
  }

  function Reason(c: Client, msg: Message): string { if |msg.params| > 2 then msg.params[2] else c.nick }

  ghost predicate KickAnswers(s: State, e: Event, c: Client, msg: Message)
    requires e.fd in s.clients
  {
    var name, nick := msg.Param(0), msg.Param(1);
    if !Passes(s, e.fd, msg, 2) then GateAnswers(s, e, msg, "KICK", 2)
    else if !OperatorOf(s, e.fd, name) then Tells(s, e, "482", name, "You are not channel operator")
    else if !ValidNick(nick) || Holders(s, nick) == {} then Tells(s, e, "401", nick, "No such nick/channel")
    else if Holders(s, nick) !! Chan(s, name).members then Tells(s, e, "441", name, "You are not on that channel")
    else Gets(s, e, Chan(s, name).members, FromClient(c, "KICK " + name + " " + nick + " :" + Reason(c, msg)))
  }

  predicate KickDecides(s: State, fd: int, msg: Message, eff: Effect)
    requires fd in s.clients
  {
    var c, name, nick := s.clients[fd], msg.Param(0), msg.Param(1);
    if !Passes(s, fd, msg, 2) then GateDecides(s, fd, msg, "KICK", 2, eff)
    else if !OperatorOf(s, fd, name) then eff == Reply(Err(c, ERR_CHANOPRIVSNEEDED, name))
    else if !ValidNick(nick) || Holders(s, nick) == {} then eff == Reply(Err(c, ERR_NOSUCHNICK, nick))
    else if Holders(s, nick) !! Chan(s, name).members then eff == Reply(Err(c, ERR_USERNOTINCHANNEL, name))
    else eff.Expel? && eff.name == name && eff.line == KickLine(c, name, nick, Reason(c, msg))
  }

  lemma {:induction false} KickDecided(s: State, fd: int, msg: Message)
    requires Sound(s) && fd in s.clients
    ensures KickDecides(s, fd, msg, DecideVerb(s, fd, msg, KICK))
  {
    if Exists(s, msg.Param(0)) { ValidIfExists(s, msg.Param(0)); }
    if Holders(s, msg.Param(1)) != {} { SoleHolder(s, msg.Param(1)); }
  }

  lemma {:induction false} KickTold(s: State, e: Event, c: Client, msg: Message, eff: Effect)
    requires e.Command? && Does(s, e, eff) && e.fd in s.clients && c == s.clients[e.fd]
    requires KickDecides(s, e.fd, msg, eff)
    ensures KickAnswers(s, e, c, msg)
  {
    var name, nick := msg.Param(0), msg.Param(1);
    if !Passes(s, e.fd, msg, 2) {
      GateTold(s, e, msg, "KICK", 2, eff);
    } else if !OperatorOf(s, e.fd, name) {
      GatesWorded();
      ErrSent(s, e, eff, ERR_CHANOPRIVSNEEDED, "482", name, "You are not channel operator");
    } else if !ValidNick(nick) || Holders(s, nick) == {} {
      NamesWorded();
      ErrSent(s, e, eff, ERR_NOSUCHNICK, "401", nick, "No such nick/channel");
    } else if Holders(s, nick) !! Chan(s, name).members {
      MembersWorded();
      ErrSent(s, e, eff, ERR_USERNOTINCHANNEL, "441", name, "You are not on that channel");
    } else {
      KickBytes(c, name, nick, Reason(c, msg));
      MembersTold(s, e, eff, name, eff.line);
    }
  }

  // ----- TOPIC ------------------------------------------------------------------------------

  /** TOPIC: a refusal; without a text, the topic of that channel or that there is none; otherwise
      every member is told the new one. */
  lemma {:induction false} TopicReplies(s: State, e: Event)
    requires Issues(s, e, TOPIC)
    ensures TopicAnswers(s, e, s.clients[e.fd], Parse(e.line))
  {
    DoesVerb(s, e, TOPIC);
    TopicDecided(s, e.fd, Parse(e.line));
    TopicTold(s, e, s.clients[e.fd], Parse(e.line), DecideVerb(s, e.fd, Parse(e.line), TOPIC));
  }

  ghost predicate TopicAnswers(s: State, e: Event, c: Client, msg: Message)
    requires e.fd in s.clients
  {
    var name := msg.Param(0);
    if !Passes(s, e.fd, msg, 1) then GateAnswers(s, e, msg, "TOPIC", 1)
    else if |msg.params| == 1 then TellsTopic(s, e, name)
    else if Chan(s, name).modes.topicRestricted && !OperatorOf(s, e.fd, name) then
      Tells(s, e, "482", name, "You are not channel operator")
    else Gets(s, e, Chan(s, name).members, FromClient(c, "TOPIC" + " " + name + " :" + msg.params[1]))
  }

  ghost predicate TellsTopic(s: State, e: Event, name: string)
    requires e.fd in s.clients && Exists(s, name)
  {
    if Chan(s, name).topic == "" then Tells(s, e, "331", name, "No topic is set")
    else Tells(s, e, "332", name, Chan(s, name).topic)
  }

  predicate TopicDecides(s: State, fd: int, msg: Message, eff: Effect)
    requires fd in s.clients
  {
    var c, name := s.clients[fd], msg.Param(0);
    if !Passes(s, fd, msg, 1) then GateDecides(s, fd, msg, "TOPIC", 1, eff)
    else if |msg.params| == 1 then eff == Reply(TopicReply(c, name, Chan(s, name).topic))
    else if Chan(s, name).modes.topicRestricted && !OperatorOf(s, fd, name) then
      eff == Reply(Err(c, ERR_CHANOPRIVSNEEDED, name))
    else eff == ChangeTopic(name, msg.params[1])
  }

  lemma {:induction false} TopicDecided(s: State, fd: int, msg: Message)
    requires Sound(s) && fd in s.clients
    ensures TopicDecides(s, fd, msg, DecideVerb(s, fd, msg, TOPIC))
  {
    if Exists(s, msg.Param(0)) { ValidIfExists(s, msg.Param(0)); }
  }

  lemma {:induction false} TopicTold(s: State, e: Event, c: Client, msg: Message, eff: Effect)
    requires e.Command? && Does(s, e, eff) && e.fd in s.clients && c == s.clients[e.fd]
    requires TopicDecides(s, e.fd, msg, eff)
    ensures TopicAnswers(s, e, c, msg)
  {
    var name := msg.Param(0);
    if !Passes(s, e.fd, msg, 1) {
      GateTold(s, e, msg, "TOPIC", 1, eff);
    } else if |msg.params| == 1 {
      if Chan(s, name).topic == "" {
        QueriesWorded();
        ErrSent(s, e, eff, RPL_NOTOPIC, "331", name, "No topic is set");
      } else {
        NumericSent(s, e, eff, "332", name, Chan(s, name).topic);
      }
    } else if Chan(s, name).modes.topicRestricted && !OperatorOf(s, e.fd, name) {
      GatesWorded();
      ErrSent(s, e, eff, ERR_CHANOPRIVSNEEDED, "482", name, "You are not channel operator");
    } else {
      var line := TextLine(c, "TOPIC", name, msg.params[1]);
      TextBytes(c, "TOPIC", name, msg.params[1]);
      MembersTold(s, e, eff, name, line);
    }
  }

  // ----- INVITE -----------------------------------------------------------------------------

  /** INVITE: each refusal; otherwise the sender is told 341 and the invited client gets the
      invitation. */
  lemma {:induction false} InviteReplies(s: State, e: Event)
    requires Issues(s, e, INVITE)
    ensures InviteAnswers(s, e, s.clients[e.fd], Parse(e.line))
  {
    DoesVerb(s, e, INVITE);
    InviteDecided(s, e.fd, Parse(e.line));
    InviteTold(s, e, s.clients[e.fd], Parse(e.line), DecideVerb(s, e.fd, Parse(e.line), INVITE));
  }

  ghost predicate InviteAnswers(s: State, e: Event, c: Client, msg: Message)
    requires e.fd in s.clients
  {
    var nick, name := msg.Param(0), msg.Param(1);
    if !c.registered then Tells(s, e, "451", "", ":You have not registered")
    else if |msg.params| < 2 then Tells(s, e, "461", "INVITE", "Not enough parameters")
    else if !ValidNick(nick) || (ValidChannel(name) && Holders(s, nick) == {}) then
      Tells(s, e, "401", nick, "No such nick/channel")
    else if !Exists(s, name) then Tells(s, e, "403", name, "No such channel")
    else if !OnChannel(s, e.fd, name) then Tells(s, e, "442", name, "You are not on that channel")
    else if !(Holders(s, nick) !! Chan(s, name).members) then
      Tells(s, e, "443", nick + " " + name, "is already on channel")
    else if Chan(s, name).modes.inviteOnly && !OperatorOf(s, e.fd, name) then
      Tells(s, e, "482", name, "You are not channel operator")
    else
      (forall f :: Bytes(s, e, f) ==
        if f == e.fd then ":irc.local " + ("341 " + Addressee(c) + " " + nick + " " + name) + "\r\n"
        else if f in Holders(s, nick) then FromClient(c, "INVITE" + " " + nick + " :" + name) else "")
  }

  predicate InviteDecides(s: State, fd: int, msg: Message, eff: Effect)
    requires fd in s.clients
  {
    var c, nick, name := s.clients[fd], msg.Param(0), msg.Param(1);
    if !c.registered then eff == Reply(Err(c, ERR_NOTREGISTERED, ""))
    else if |msg.params| < 2 then eff == Reply(Err(c, ERR_NEEDMOREPARAMS, "INVITE"))
    else if !ValidNick(nick) || (ValidChannel(name) && Holders(s, nick) == {}) then
      eff == Reply(Err(c, ERR_NOSUCHNICK, nick))
    else if !Exists(s, name) then eff == Reply(Err(c, ERR_NOSUCHCHANNEL, name))
    else if !OnChannel(s, fd, name) then eff == Reply(Err(c, ERR_NOTONCHANNEL, name))
    else if !(Holders(s, nick) !! Chan(s, name).members) then
      eff == Reply(Err(c, ERR_USERONCHANNEL, nick + " " + name))
    else if Chan(s, name).modes.inviteOnly && !OperatorOf(s, fd, name) then
      eff == Reply(Err(c, ERR_CHANOPRIVSNEEDED, name))
    else eff.InviteIn? && eff.name == name && eff.nick == nick && Holders(s, nick) == {eff.who}
  }

  lemma {:induction false} InviteDecided(s: State, fd: int, msg: Message)
    requires Sound(s) && fd in s.clients
    ensures InviteDecides(s, fd, msg, DecideVerb(s, fd, msg, INVITE))
  {
    if Exists(s, msg.Param(1)) { ValidIfExists(s, msg.Param(1)); }
    if Holders(s, msg.Param(0)) != {} { SoleHolder(s, msg.Param(0)); }
  }

  lemma {:induction false} InviteTold(s: State, e: Event, c: Client, msg: Message, eff: Effect)
    requires Does(s, e, eff) && e.fd in s.clients && c == s.clients[e.fd] && InviteDecides(s, e.fd, msg, eff)
    ensures InviteAnswers(s, e, c, msg)
  {
    if !c.registered {
      RegistrationWorded();
      ErrSent(s, e, eff, ERR_NOTREGISTERED, "451", "", ":You have not registered");
    } else if |msg.params| < 2 {
      RegistrationWorded();
      ErrSent(s, e, eff, ERR_NEEDMOREPARAMS, "461", "INVITE", "Not enough parameters");
    } else {
      InviteNamed(s, e, c, msg, eff);
    }
  }

  lemma {:induction false} InviteNamed(s: State, e: Event, c: Client, msg: Message, eff: Effect)
    requires Does(s, e, eff) && e.fd in s.clients && c == s.clients[e.fd] && InviteDecides(s, e.fd, msg, eff)
    requires c.registered && |msg.params| >= 2
    ensures InviteAnswers(s, e, c, msg)
  {
    var nick, name := msg.Param(0), msg.Param(1);
    if !ValidNick(nick) || (ValidChannel(name) && Holders(s, nick) == {}) {
      NamesWorded();
      ErrSent(s, e, eff, ERR_NOSUCHNICK, "401", nick, "No such nick/channel");
    } else if !Exists(s, name) {
      NamesWorded();
      ErrSent(s, e, eff, ERR_NOSUCHCHANNEL, "403", name, "No such channel");
    } else if !OnChannel(s, e.fd, name) {
      MembersWorded();
      ErrSent(s, e, eff, ERR_NOTONCHANNEL, "442", name, "You are not on that channel");
    } else if !(Holders(s, nick) !! Chan(s, name).members) {
      MembersWorded();
      ErrSent(s, e, eff, ERR_USERONCHANNEL, "443", nick + " " + name, "is already on channel");
    } else if Chan(s, name).modes.inviteOnly && !OperatorOf(s, e.fd, name) {
      GatesWorded();
      ErrSent(s, e, eff, ERR_CHANOPRIVSNEEDED, "482", name, "You are not channel operator");
    } else {
      InvitationSent(s, e, c, nick, name, eff);
    }
  }

  lemma {:induction false} InvitationSent(s: State, e: Event, c: Client, nick: string, name: string, eff: Effect)
    requires Does(s, e, eff) && e.fd in s.clients && c == s.clients[e.fd] && eff.InviteIn?
    requires eff.name == name && eff.nick == nick && Holders(s, nick) == {eff.who} && eff.who != e.fd
    ensures forall f :: Bytes(s, e, f) ==
              if f == e.fd then ":irc.local " + ("341 " + Addressee(c) + " " + nick + " " + name) + "\r\n"
              else if f in Holders(s, nick) then FromClient(c, "INVITE" + " " + nick + " :" + name) else ""
  {
    OpenDoes(s, e, eff);
    InvitingBytes(c, nick, name);
    InviteBytes(c, nick, name);
    TwoOuts(s, e, Out(e.fd, Inviting(c, nick, name)), Out(eff.who, InviteLine(c, nick, name)));
  }

  lemma {:induction false} TwoOuts(s: State, e: Event, a: Out, b: Out)
    requires Outputs(s, e) == [a, b] && a.fd != b.fd
    ensures forall f :: Bytes(s, e, f) == if f == a.fd then Render(a.line) else if f == b.fd then Render(b.line) else ""
  {
    OneLine(a.line);
    OneLine(b.line);
    forall f ensures Bytes(s, e, f) == if f == a.fd then Render(a.line) else if f == b.fd then Render(b.line) else "" {
      assert [a, b] == [a] + [b];
      ToFdConcat([a], [b], f);
      ToFdOne(a, f);
      ToFdOne(b, f);
    }
  }

  // ----- PRIVMSG and NOTICE -----------------------------------------------------------------

  /** PRIVMSG and NOTICE: the text goes to everybody else on the channel, or to the holder of the
      nickname; a refusal is told after PRIVMSG and kept silent after NOTICE. */
  lemma {:induction false} TextReplies(s: State, e: Event, verb: Verb)
    requires Issues(s, e, verb) && (verb.PRIVMSG? || verb.NOTICE?)
    ensures Next(s, e) == s && TextAnswers(s, e, s.clients[e.fd], Parse(e.line), verb)
  {
    DoesVerb(s, e, verb);
    TextDecided(s, e.fd, Parse(e.line), verb);
    TextTold(s, e, s.clients[e.fd], Parse(e.line), verb, DecideVerb(s, e.fd, Parse(e.line), verb));
  }

  function TextWord(verb: Verb): string { if verb.PRIVMSG? then "PRIVMSG" else "NOTICE" }

  ghost predicate TextAnswers(s: State, e: Event, c: Client, msg: Message, verb: Verb)
    requires e.fd in s.clients
  {
    var target, complains := msg.Param(0), verb.PRIVMSG?;
    if !c.registered then Complains(s, e, complains, "451", "", ":You have not registered")
    else if |msg.params| < 2 then Complains(s, e, complains, "461", TextWord(verb), "Not enough parameters")
    else
      var text := FromClient(c, TextWord(verb) + " " + target + " :" + msg.params[1]);
      if target != "" && target[0] == '#' then
        if !Exists(s, target) then Complains(s, e, complains, "403", target, "No such channel")
        else if !OnChannel(s, e.fd, target) then Complains(s, e, complains, "404", target, "Cannot send to channel")
        else Gets(s, e, Chan(s, target).members - {e.fd}, text)
      else if !ValidNick(target) || Holders(s, target) == {} then
        Complains(s, e, complains, "401", target, "No such nick/channel")
      else Gets(s, e, Holders(s, target), text)
  }

  ghost predicate Complains(s: State, e: Event, aloud: bool, code: string, params: string, text: string)
    requires e.fd in s.clients
  {
    if aloud then Tells(s, e, code, params, text) else Gets(s, e, {}, "")
  }

  predicate TextDecides(s: State, fd: int, msg: Message, verb: Verb, eff: Effect)
    requires fd in s.clients
  {
    var c, target, complains := s.clients[fd], msg.Param(0), verb.PRIVMSG?;
    if !c.registered then Complaint(c, complains, ERR_NOTREGISTERED, "", eff)
    else if |msg.params| < 2 then Complaint(c, complains, ERR_NEEDMOREPARAMS, TextWord(verb), eff)
    else
      var line := TextLine(c, TextWord(verb), target, msg.params[1]);
      if target != "" && target[0] == '#' then
        if !Exists(s, target) then Complaint(c, complains, ERR_NOSUCHCHANNEL, target, eff)
        else if !OnChannel(s, fd, target) then Complaint(c, complains, ERR_CANNOTSENDTOCHAN, target, eff)
        else eff == RelayAll(target, line)
      else if !ValidNick(target) || Holders(s, target) == {} then Complaint(c, complains, ERR_NOSUCHNICK, target, eff)
      else eff.RelayOne? && eff.line == line && Holders(s, target) == {eff.to}
  }

  predicate Complaint(c: Client, aloud: bool, n: Numeral, params: string, eff: Effect) {
    if aloud then eff == Reply(Err(c, n, params)) else eff.Ignore?
  }

  lemma {:induction false} TextDecided(s: State, fd: int, msg: Message, verb: Verb)
    requires Sound(s) && fd in s.clients && (verb.PRIVMSG? || verb.NOTICE?)
    ensures TextDecides(s, fd, msg, verb, DecideVerb(s, fd, msg, verb))
  {
    if Exists(s, msg.Param(0)) { ValidIfExists(s, msg.Param(0)); }
    if Holders(s, msg.Param(0)) != {} { SoleHolder(s, msg.Param(0)); }
  }

  lemma {:induction false} Complained(s: State, e: Event, aloud: bool, eff: Effect, n: Numeral, code: string,
                                      params: string, text: string)
    requires Does(s, e, eff) && Worded(n, code, text) && e.fd in s.clients
    requires Complaint(s.clients[e.fd], aloud, n, params, eff)
    ensures Next(s, e) == s && Complains(s, e, aloud, code, params, text)
  {
    if aloud {
      ErrSent(s, e, eff, n, code, params, text);
    } else {
      OpenDoes(s, e, eff);
      assert ToFd([], 0) == [];
    }
  }

  lemma {:induction false} TextTold(s: State, e: Event, c: Client, msg: Message, verb: Verb, eff: Effect)
    requires Does(s, e, eff) && e.fd in s.clients && c == s.clients[e.fd] && (verb.PRIVMSG? || verb.NOTICE?)
    requires TextDecides(s, e.fd, msg, verb, eff)
    ensures Next(s, e) == s && TextAnswers(s, e, c, msg, verb)
  {
    var target, complains := msg.Param(0), verb.PRIVMSG?;
    NamesWorded();
    if !c.registered {
      RegistrationWorded();
      Complained(s, e, complains, eff, ERR_NOTREGISTERED, "451", "", ":You have not registered");
    } else if |msg.params| < 2 {
      RegistrationWorded();
      Complained(s, e, complains, eff, ERR_NEEDMOREPARAMS, "461", TextWord(verb), "Not enough parameters");
    } else if target != "" && target[0] == '#' {
      if !Exists(s, target) {
        Complained(s, e, complains, eff, ERR_NOSUCHCHANNEL, "403", target, "No such channel");
      } else if !OnChannel(s, e.fd, target) {
        MembersWorded();
        Complained(s, e, complains, eff, ERR_CANNOTSENDTOCHAN, "404", target, "Cannot send to channel");
      } else {
        TextBytes(c, TextWord(verb), target, msg.params[1]);
        TextSent(s, e, eff);
      }
    } else if !ValidNick(target) || Holders(s, target) == {} {
      Complained(s, e, complains, eff, ERR_NOSUCHNICK, "401", target, "No such nick/channel");
    } else {
      TextBytes(c, TextWord(verb), target, msg.params[1]);
      TextSent(s, e, eff);
    }
  }

  lemma {:induction false} TextSent(s: State, e: Event, eff: Effect)
    requires Does(s, e, eff) && (eff.RelayAll? || eff.RelayOne?)
    ensures Next(s, e) == s
    ensures eff.RelayAll? && Exists(s, eff.name) ==>
              Gets(s, e, Chan(s, eff.name).members - {e.fd}, Render(eff.line))
    ensures eff.RelayOne? ==> Gets(s, e, {eff.to}, Render(eff.line))
  {
    OpenDoes(s, e, eff);
    if eff.RelayOne? {
      OneOut(s, e, Out(eff.to, eff.line));
    } else if Exists(s, eff.name) {
      Announced(s, e, e.order, eff.line, e.fd, Chan(s, eff.name).members);
    }
  }
}
