/** What the remaining commands set and send: registration, keep-alive, leaving, and words that are no
    commands (src/b/CommandDispatcher.cpp, src/b/DisconnectNotifier.cpp). */
module RegistrationReplies {
  import opened IrcText
  import opened Wire
  import opened Model
  import opened Soundness
  import opened Runs
  import opened CommandTheorems
  import opened Wording
  import opened Replies

  /** Nothing happens but that the sender is told so, whatever it is called. */
  ghost predicate TellsAny(s: State, e: Event, code: string, params: string, text: string) {
    Next(s, e) == s && Gets(s, e, {e.fd}, FromServer(code, "*", params, text))
  }

  /** Only the record of the sender changes, and it is welcomed when it has become registered. */
  ghost predicate Becomes(s: State, e: Event, d: Client)
    requires e.fd in s.clients
  {
    Next(s, e) == s.(clients := s.clients[e.fd := d]) &&
    if !s.clients[e.fd].registered && d.registered then
      Gets(s, e, {e.fd}, FromServer("001", d.nick, "",
        "Welcome to the IRC Network " + (d.nick + "!" + d.username + "@" + d.host)))
    else Gets(s, e, {}, "")
  }

  lemma {:induction false} AnySent(s: State, e: Event, eff: Effect, code: string, params: string, text: string)
    requires Does(s, e, eff) && eff == Reply(Numeric(code, "*", params, text))
    ensures TellsAny(s, e, code, params, text)
  {
    LineSent(s, e, eff);
    ServerBytes(code, "*", params, text);
  }

  lemma {:induction false} NothingSent(s: State, e: Event)
    requires Outputs(s, e) == []
    ensures Gets(s, e, {}, "")
  {
    assert forall f :: ToFd([], f) == [];
  }

  /** A client that takes the record `d`, registered or not. */
  lemma {:induction false} BecomesSent(s: State, e: Event, d: Client)
    requires e.fd in s.clients && Next(s, e) == WithClient(s, e.fd, d)
    requires Outputs(s, e) == WelcomeIfNew(e.fd, s.clients[e.fd], d)
    ensures Becomes(s, e, d)
  {
    if !s.clients[e.fd].registered && d.registered {
      OneOut(s, e, Out(e.fd, Model.Welcome(d)));
      ServerBytes("001", d.nick, "", "Welcome to the IRC Network " + FullPrefix(d));
    } else {
      NothingSent(s, e);
    }
  }

  // ----- PASS -------------------------------------------------------------------------------

  /** PASS opens the way to registration exactly when it gives the password of the server before
      the client is registered; it never answers but to refuse. */
  lemma {:induction false} PassReplies(s: State, e: Event)
    requires Issues(s, e, PASS)
    ensures PassAnswers(s, e, s.clients[e.fd], Parse(e.line))
  {
    DoesVerb(s, e, PASS);
    PassTold(s, e, s.clients[e.fd], Parse(e.line), DecideVerb(s, e.fd, Parse(e.line), PASS));
  }

  ghost predicate PassAnswers(s: State, e: Event, c: Client, msg: Message)
    requires e.fd in s.clients
  {
    if |msg.params| == 0 then Tells(s, e, "461", "PASS", "Not enough parameters")
    else if c.registered then Tells(s, e, "462", "", "You may not reregister")
    else if msg.params[0] != s.password then TellsAny(s, e, "464", "", "Password incorrect")
    else Becomes(s, e, c.(passOk := true))
  }

  predicate PassDecides(s: State, c: Client, msg: Message, eff: Effect) {
    if |msg.params| == 0 then eff == Reply(Err(c, ERR_NEEDMOREPARAMS, "PASS"))
    else if c.registered then eff == Reply(Err(c, ERR_ALREADYREGISTERED, ""))
    else if msg.params[0] != s.password then eff == Reply(PasswordMismatch())
    else eff == AcceptPass
  }

  lemma {:induction false} PassTold(s: State, e: Event, c: Client, msg: Message, eff: Effect)
    requires e.Command? && Does(s, e, eff) && e.fd in s.clients && c == s.clients[e.fd] && PassDecides(s, c, msg, eff)
    ensures PassAnswers(s, e, c, msg)
  {
    RegistrationWorded();
    if |msg.params| == 0 {
      ErrSent(s, e, eff, ERR_NEEDMOREPARAMS, "461", "PASS", "Not enough parameters");
    } else if c.registered {
      ErrSent(s, e, eff, ERR_ALREADYREGISTERED, "462", "", "You may not reregister");
    } else if msg.params[0] != s.password {
      AnySent(s, e, eff, "464", "", "Password incorrect");
    } else {
      OpenDoes(s, e, eff);
      BecomesSent(s, e, c.(passOk := true));
    }
  }

  // ----- NICK -------------------------------------------------------------------------------

  /** NICK: each refusal; otherwise the nickname is taken, which registers a client that has given
      everything else. Nobody else is told. */
  lemma {:induction false} NickReplies(s: State, e: Event)
    requires Issues(s, e, NICK)
    ensures NickAnswers(s, e, s.clients[e.fd], Parse(e.line))
  {
    DoesVerb(s, e, NICK);
    NickTold(s, e, s.clients[e.fd], Parse(e.line), DecideVerb(s, e.fd, Parse(e.line), NICK));
  }

  ghost predicate NickAnswers(s: State, e: Event, c: Client, msg: Message)
    requires e.fd in s.clients
  {
    if !c.passOk then TellsAny(s, e, "464", "", "Password incorrect")
    else if |msg.params| == 0 then Tells(s, e, "461", "NICK", "Not enough parameters")
    else
      var nick := msg.params[0];
      if !ValidNick(nick) then Tells(s, e, "432", nick, "Erroneous nickname")
      else if exists f <- s.clients :: f != e.fd && s.clients[f].nick != "" && SameName(s.clients[f].nick, nick) then
        TellsAny(s, e, "433", nick, "Nickname is already in use")
      else Becomes(s, e, c.(nick := nick, registered := c.username != "" && c.realname != ""))
  }

  predicate NickDecides(s: State, fd: int, c: Client, msg: Message, eff: Effect) {
    if !c.passOk then eff == Reply(PasswordMismatch())
    else if |msg.params| == 0 then eff == Reply(Err(c, ERR_NEEDMOREPARAMS, "NICK"))
    else if !ValidNick(msg.params[0]) then eff == Reply(Err(c, ERR_ERRONEUSNICKNAME, msg.params[0]))
    else if Holders(s, msg.params[0]) - {fd} != {} then eff == Reply(NickInUse(msg.params[0]))
    else eff == TakeNick(msg.params[0])
  }

  lemma {:induction false} HeldByAnother(s: State, fd: int, nick: string)
    ensures Holders(s, nick) - {fd} != {} <==>
            exists f <- s.clients :: f != fd && s.clients[f].nick != "" && SameName(s.clients[f].nick, nick)
  {
    forall f ensures f in Holders(s, nick) <==>
        f in s.clients && s.clients[f].nick != "" && SameName(s.clients[f].nick, nick)
    {
      HeldBy(s, nick, f);
    }
    if Holders(s, nick) - {fd} != {} {
      HasElement(Holders(s, nick) - {fd});
    } else {
      assert forall f <- Holders(s, nick) :: f == fd || f in Holders(s, nick) - {fd};
    }
  }

  lemma {:induction false} NickTold(s: State, e: Event, c: Client, msg: Message, eff: Effect)
    requires e.Command? && Does(s, e, eff) && e.fd in s.clients && c == s.clients[e.fd]
    requires NickDecides(s, e.fd, c, msg, eff)
    ensures NickAnswers(s, e, c, msg)
  {
    RegistrationWorded();
    NamesWorded();
    if !c.passOk {
      AnySent(s, e, eff, "464", "", "Password incorrect");
    } else if |msg.params| == 0 {
      ErrSent(s, e, eff, ERR_NEEDMOREPARAMS, "461", "NICK", "Not enough parameters");
    } else {
      var nick := msg.params[0];
      HeldByAnother(s, e.fd, nick);
      if !ValidNick(nick) {
        ErrSent(s, e, eff, ERR_ERRONEUSNICKNAME, "432", nick, "Erroneous nickname");
      } else if Holders(s, nick) - {e.fd} != {} {
        AnySent(s, e, eff, "433", nick, "Nickname is already in use");
      } else {
        NickTaken(s, e, c, nick, eff);
      }
    }
  }

  lemma {:induction false} NickTaken(s: State, e: Event, c: Client, nick: string, eff: Effect)
    requires Does(s, e, eff) && e.fd in s.clients && c == s.clients[e.fd] && eff == TakeNick(nick)
    requires c.passOk && ValidNick(nick)
    ensures Becomes(s, e, c.(nick := nick, registered := c.username != "" && c.realname != ""))
  {
    OpenDoes(s, e, eff);
    assert GoodClient(c);
    BecomesSent(s, e, c.(nick := nick, registered := c.username != "" && c.realname != ""));
  }

  // ----- USER -------------------------------------------------------------------------------

  /** USER: each refusal; otherwise the names are taken, before or after NICK, and the client is
      registered exactly when it has a nickname and both names are not empty. */
  lemma {:induction false} UserReplies(s: State, e: Event)
    requires Issues(s, e, USER)
    ensures UserAnswers(s, e, s.clients[e.fd], Parse(e.line))
  {
    DoesVerb(s, e, USER);
    UserTold(s, e, s.clients[e.fd], Parse(e.line), DecideVerb(s, e.fd, Parse(e.line), USER));
  }

  ghost predicate UserAnswers(s: State, e: Event, c: Client, msg: Message)
    requires e.fd in s.clients
  {
    if !c.passOk then TellsAny(s, e, "464", "", "Password incorrect")
    else if |msg.params| < 4 then Tells(s, e, "461", "USER", "Not enough parameters")
    else if c.registered then Tells(s, e, "462", "", "You may not reregister")
    else
      var user, realname := msg.params[0], msg.params[3];
      Becomes(s, e,
        c.(username := user, realname := realname, registered := c.nick != "" && user != "" && realname != ""))
  }

  predicate UserDecides(c: Client, msg: Message, eff: Effect) {
    if !c.passOk then eff == Reply(PasswordMismatch())
    else if |msg.params| < 4 then eff == Reply(Err(c, ERR_NEEDMOREPARAMS, "USER"))
    else if c.registered then eff == Reply(Err(c, ERR_ALREADYREGISTERED, ""))
    else eff == TakeUser(msg.params[0], msg.params[3])
  }

  lemma {:induction false} UserTold(s: State, e: Event, c: Client, msg: Message, eff: Effect)
    requires e.Command? && Does(s, e, eff) && e.fd in s.clients && c == s.clients[e.fd] && UserDecides(c, msg, eff)
    ensures UserAnswers(s, e, c, msg)
  {
    RegistrationWorded();
    if !c.passOk {
      AnySent(s, e, eff, "464", "", "Password incorrect");
    } else if |msg.params| < 4 {
      ErrSent(s, e, eff, ERR_NEEDMOREPARAMS, "461", "USER", "Not enough parameters");
    } else if c.registered {
      ErrSent(s, e, eff, ERR_ALREADYREGISTERED, "462", "", "You may not reregister");
    } else {
      OpenDoes(s, e, eff);
      var user, realname := msg.params[0], msg.params[3];
      BecomesSent(s, e,
        c.(username := user, realname := realname, registered := c.nick != "" && user != "" && realname != ""));
    }
  }

  // ----- PING, PONG, QUIT and the rest ------------------------------------------------------

  /** PING gets its token back. */
  lemma {:induction false} PingReplies(s: State, e: Event)
    requires Issues(s, e, PING)
    ensures var params := Parse(e.line).params;
            if |params| == 0 then Tells(s, e, "461", "PING", "Not enough parameters")
            else Next(s, e) == s && Gets(s, e, {e.fd}, ":irc.local " + ("PONG irc.local :" + params[0]) + "\r\n")
  {
    DoesVerb(s, e, PING);
    var c, params, eff := s.clients[e.fd], Parse(e.line).params, DecideVerb(s, e.fd, Parse(e.line), PING);
    if |params| == 0 {
      RegistrationWorded();
      ErrSent(s, e, eff, ERR_NEEDMOREPARAMS, "461", "PING", "Not enough parameters");
    } else {
      PongBytes(params[0]);
      LineSent(s, e, eff);
    }
  }

  /** PONG is not answered; its last parameter is the token that the monitor is given. */
  lemma {:induction false} PongReplies(s: State, e: Event)
    requires Issues(s, e, PONG)
    ensures if |Parse(e.line).params| == 0 then Tells(s, e, "461", "PONG", "Not enough parameters")
            else
              Next(s, e) == s && Gets(s, e, {}, "") &&
              Decide(s, e.fd, Parse(e.line)) == Heartbeat(Parse(e.line).params[|Parse(e.line).params| - 1])
  {
    var msg := Parse(e.line);
    DoesVerb(s, e, PONG);
    Spelled(msg.command, PONG);
    PongTold(s, e, s.clients[e.fd], msg, DecideVerb(s, e.fd, msg, PONG));
  }

  lemma {:induction false} PongTold(s: State, e: Event, c: Client, msg: Message, eff: Effect)
    requires Does(s, e, eff) && e.fd in s.clients && c == s.clients[e.fd]
    requires if |msg.params| == 0 then eff == Reply(Err(c, ERR_NEEDMOREPARAMS, "PONG")) else eff.Heartbeat?
    ensures if |msg.params| == 0 then Tells(s, e, "461", "PONG", "Not enough parameters")
            else Next(s, e) == s && Gets(s, e, {}, "")
  {
    if |msg.params| == 0 {
      RegistrationWorded();
      ErrSent(s, e, eff, ERR_NEEDMOREPARAMS, "461", "PONG", "Not enough parameters");
    } else {
      OpenDoes(s, e, eff);
      NothingSent(s, e);
    }
  }

  const COMMANDS := {
    "PING", "QUIT", "PASS", "NICK", "USER", "JOIN", "PART", "PRIVMSG", "NOTICE", "KICK", "INVITE", "TOPIC", "MODE",
    "PONG"}

  /** A word that is none of the commands is reported; an empty line is passed over. */
  lemma {:induction false} OtherReplies(s: State, e: Event)
    requires Sound(s) && Enabled(s, e) && e.Command? && Parse(e.line).command !in COMMANDS
    ensures var word := Parse(e.line).command;
            if word == "" then Next(s, e) == s && Gets(s, e, {}, "") else Tells(s, e, "421", word, "Unknown command")
  {
    var word := Parse(e.line).command;
    NoCommand(word);
    ModesWorded();
    if word == "" {
      NothingSent(s, e);
    } else {
      UnknownSent(s, e);
    }
  }

  lemma {:induction false} NoCommand(word: string)
    requires word !in COMMANDS
    ensures VerbOf(word) == if word == "" then NOTHING else UNKNOWN
  {
  }

  lemma {:induction false} UnknownSent(s: State, e: Event)
    requires Sound(s) && Enabled(s, e) && e.Command? && VerbOf(Parse(e.line).command).UNKNOWN?
    requires Worded(ERR_UNKNOWNCOMMAND, "421", "Unknown command")
    ensures Tells(s, e, "421", Parse(e.line).command, "Unknown command")
  {
    var line := Err(s.clients[e.fd], ERR_UNKNOWNCOMMAND, Parse(e.line).command);
    OneOut(s, e, Out(e.fd, line));
    ServerBytes("421", Addressee(s.clients[e.fd]), Parse(e.line).command, "Unknown command");
  }

  /** Everybody else on some channel with a client that is gone is told so once, with the reason. */
  lemma {:induction false} QuitReplies(s: State, fd: int, reason: string, order: seq<int>)
    requires Sound(s) && Enabled(s, Disconnect(fd, reason, order))
    ensures Gets(s, Disconnect(fd, reason, order),
              set k, f | k in s.channels && fd in s.channels[k].members && f in s.channels[k].members && f != fd :: f,
              FromClient(s.clients[fd], "QUIT :" + reason))
  {
    var e, line := Disconnect(fd, reason, order), QuitLine(s.clients[fd], reason);
    QuitBytes(s.clients[fd], reason);
    Announced(s, e, order, line, fd, Peers(s, fd));
    assert Peers(s, fd) - {fd} == Peers(s, fd);
  }
}
