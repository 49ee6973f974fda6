/** What every reachable state satisfies, and what a command may do in it. */
module Soundness {
  import opened Sealing
  import opened IrcText
  import opened Wire
  import opened Modes
  import opened Model

  // ----- The state invariant ----------------------------------------------------------------

  predicate GoodClient(c: Client) {
    (c.nick == "" || ValidNick(c.nick)) &&
    SpaceFree(c.username) && NoNewline(c.username) && NoNewline(c.realname) &&
    SpaceFree(c.host) && NoNewline(c.host) &&
    (c.nick != "" || c.username != "" ==> c.passOk) &&
    (c.registered <==> CanRegister(c))
  }

  predicate GoodChannel(clients: map<int, Client>, k: string, ch: Channel) {
    Fold(ch.name) == k && ValidChannel(ch.name) &&
    ch.members != {} && ch.members <= clients.Keys && ch.ops <= ch.members &&
    ch.invited <= clients.Keys && ch.invited !! ch.members &&
    (forall f <- ch.members :: clients[f].registered) &&
    NoNewline(ch.topic) && NoNewline(ch.modes.key) && ch.modes.Valid()
  }

  predicate DistinctNicks(clients: map<int, Client>) {
    forall f, g :: f in clients && g in clients && f != g && clients[f].nick != "" ==>
      Fold(clients[f].nick) != Fold(clients[g].nick)
  }

  predicate Sound(s: State) {
    (forall f <- s.clients :: f >= 0 && GoodClient(s.clients[f])) &&
    DistinctNicks(s.clients) &&
    forall k <- s.channels :: GoodChannel(s.clients, k, s.channels[k])
  }

  lemma HolderUnique(s: State, nick: string, f: int)
    requires DistinctNicks(s.clients) && f in Holders(s, nick)
    ensures Holders(s, nick) == {f}
  {
    forall g | g in Holders(s, nick) ensures g == f {
      var mine, theirs := s.clients[f].nick, s.clients[g].nick;
      assert g != f ==> Fold(mine) != Fold(theirs);
    }
  }

  /** Validity of a channel name survives folding. */
  lemma {:induction false} SameValidity(a: string, b: string)
    requires Fold(a) == Fold(b) && ValidChannel(a)
    ensures ValidChannel(b)
  {
    assert forall i :: 0 <= i < |a| ==> ToLower(a[i]) == Fold(a)[i] == ToLower(b[i]);
    forall c | c in b[1..] ensures IsChannelChar(c) {
      var i :| 1 <= i < |b| && b[i] == c;
      assert a[i] in a[1..];
    }
  }

  // ----- What a command may do --------------------------------------------------------------

  /** Messages as they come out of the parser from a newline-free line. */
  predicate Parsed(msg: Message) {
    CleanMessage(msg) && forall i :: 0 <= i < |msg.params| - 1 ==> IsMiddle(msg.params[i])
  }

  lemma ParsedFromLine(line: string)
    requires NoNewline(line)
    ensures Parsed(Parse(line))
  {
    ParseClean(line);
    var m := Parse(line);
    ParseEmpty(line);
    if m.command != "" {
      ParsedShape(line);
      forall i | 0 <= i < |m.params| - 1 ensures IsMiddle(m.params[i]) {
        assert Reprint(m).middles[i] == m.params[i];
      }
    }
  }

  /** A line without newlines that is neither a welcome nor a QUIT. */
  ghost predicate PlainReply(l: Line) {
    forall key: Key :: Turned(key, l) ==> CleanLine(l) && l.command != "001" && l.command != "QUIT"
  }

  lemma OpenPlain(l: Line)
    requires PlainReply(l)
    ensures CleanLine(l) && l.command != "001" && l.command != "QUIT"
  {
    assert Turned(Key, l);
  }

  /** `fd` passes every gate of the channel it wants to enter. */
  predicate Admitted(ch: Channel, fd: int, msg: Message) {
    (ch.modes.inviteOnly ==> fd in ch.invited) &&
    (ch.modes.hasKey ==> msg.HasParam(1) && msg.Param(1) == ch.modes.key) &&
    (ch.modes.limit >= 0 ==> |ch.members| < ch.modes.limit)
  }

  ghost predicate Allowed(s: State, fd: int, msg: Message, eff: Effect)
    requires fd in s.clients
  {
    var c := s.clients[fd];
    match eff
    case Ignore => true
    case Quit => true
    case Heartbeat(token) => true
    case Reply(line) => PlainReply(line)
    case AcceptPass => msg.HasParam(0) && msg.Param(0) == s.password && !c.registered
    case TakeNick(nick) => c.passOk && ValidNick(nick) && Holders(s, nick) <= {fd}
    case TakeUser(u, r) =>
      c.passOk && !c.registered && u != "" && SpaceFree(u) && NoNewline(u) && NoNewline(r)
    case Enter(name) =>
      c.registered && ValidChannel(name) && name == msg.Param(0) &&
      (Exists(s, name) && !OnChannel(s, fd, name) ==> Admitted(Chan(s, name), fd, msg))
    case Depart(name) => c.registered && OnChannel(s, fd, name) && ValidChannel(name)
    case RelayAll(name, line) =>
      c.registered && OnChannel(s, fd, name) && PlainReply(line) && IsMiddle(name) && name == msg.Param(0) &&
      line == TextLine(c, line.command, name, msg.Param(1)) && line.command in {"PRIVMSG", "NOTICE"}
    case RelayOne(to, line) =>
      c.registered && to in s.clients && PlainReply(line) && IsMiddle(msg.Param(0)) &&
      Holders(s, msg.Param(0)) == {to} &&
      line == TextLine(c, line.command, msg.Param(0), msg.Param(1)) && line.command in {"PRIVMSG", "NOTICE"}
    case Expel(name, who, line) =>
      c.registered && OperatorOf(s, fd, name) && OnChannel(s, who, name) && PlainReply(line)
    case InviteIn(name, who, nick) =>
      c.registered && OnChannel(s, fd, name) && who in s.clients && !OnChannel(s, who, name) &&
      (Chan(s, name).modes.inviteOnly ==> OperatorOf(s, fd, name)) && ValidNick(nick) && ValidChannel(name) &&
      name == msg.Param(1)
    case ChangeTopic(name, topic) =>
      c.registered && OnChannel(s, fd, name) && ValidChannel(name) && NoNewline(topic) &&
      (Chan(s, name).modes.topicRestricted ==> OperatorOf(s, fd, name))
    case ChangeModes(name, modes, token, arg) =>
      c.registered && OperatorOf(s, fd, name) && ValidChannel(name) &&
      modes.Valid() && NoNewline(modes.key) && NoNewline(token) && NoNewline(arg)
    case ChangeOp(name, who, grant, token, nick) =>
      c.registered && OperatorOf(s, fd, name) && ValidChannel(name) && OnChannel(s, who, name) &&
      NoNewline(token) && NoNewline(nick)
  }

  lemma TargetClean(c: Client)
    requires GoodClient(c)
    ensures NoNewline(ReplyTarget(c)) && NoNewline(FullPrefix(c)) && SpaceFree(FullPrefix(c)) && FullPrefix(c) != ""
    ensures IsMiddle(ReplyTarget(c))
  {
    if c.nick != "" {
      NickIsPlain(c.nick);
      assert c.nick[0] in c.nick;
    }
  }

  lemma {:induction false} TextClean1(n: Numeral)
    requires n in {RPL_NOTOPIC, RPL_ENDOFNAMES, ERR_NOSUCHNICK, ERR_NOSUCHCHANNEL}
    ensures NoNewline(n.Text())
  {
  }

  lemma {:induction false} TextClean2(n: Numeral)
    requires n in {ERR_CANNOTSENDTOCHAN, ERR_UNKNOWNCOMMAND, ERR_ERRONEUSNICKNAME, ERR_NICKNAMEINUSE}
    ensures NoNewline(n.Text())
  {
  }

  lemma {:induction false} TextClean3(n: Numeral)
    requires n in {ERR_USERNOTINCHANNEL, ERR_NOTONCHANNEL, ERR_USERONCHANNEL, ERR_NOTREGISTERED}
    ensures NoNewline(n.Text())
  {
  }

  lemma {:induction false} TextClean4(n: Numeral)
    requires n in {ERR_NEEDMOREPARAMS, ERR_ALREADYREGISTERED, ERR_PASSWDMISMATCH, ERR_CHANNELISFULL}
    ensures NoNewline(n.Text())
  {
  }

  lemma {:induction false} TextClean5(n: Numeral)
    requires n in {ERR_UNKNOWNMODE, ERR_INVITEONLYCHAN, ERR_BADCHANNELKEY, ERR_CHANOPRIVSNEEDED}
    ensures NoNewline(n.Text())
  {
  }

  lemma {:induction false} TextClean6(n: Numeral)
    requires n in {ERR_INVALIDMODEPARAM}
    ensures NoNewline(n.Text())
  {
  }

  lemma {:induction false} NumeralClean(n: Numeral)
    ensures NoNewline(n.Text()) && NoNewline(n.Code()) && SpaceFree(n.Code()) && n.Code() != "001" && n.Code() != "QUIT"
  {
    if n in {RPL_NOTOPIC, RPL_ENDOFNAMES, ERR_NOSUCHNICK, ERR_NOSUCHCHANNEL} {
      TextClean1(n);
    } else if n in {ERR_CANNOTSENDTOCHAN, ERR_UNKNOWNCOMMAND, ERR_ERRONEUSNICKNAME, ERR_NICKNAMEINUSE} {
      TextClean2(n);
    } else if n in {ERR_USERNOTINCHANNEL, ERR_NOTONCHANNEL, ERR_USERONCHANNEL, ERR_NOTREGISTERED} {
      TextClean3(n);
    } else if n in {ERR_NEEDMOREPARAMS, ERR_ALREADYREGISTERED, ERR_PASSWDMISMATCH, ERR_CHANNELISFULL} {
      TextClean4(n);
    } else if n in {ERR_UNKNOWNMODE, ERR_INVITEONLYCHAN, ERR_BADCHANNELKEY, ERR_CHANOPRIVSNEEDED} {
      TextClean5(n);
    } else if n in {ERR_INVALIDMODEPARAM} {
      TextClean6(n);
    }
    CodeClean(n.Number());
  }

  lemma {:induction false} CodeClean(n: nat)
    requires n > 1
    ensures NoNewline(Decimal(n)) && SpaceFree(Decimal(n)) && Decimal(n) != "001" && Decimal(n) != "QUIT"
  {
    DigitsClean(n);
    ValueOfDigits(n);
    assert Value("001") == 1 by { assert "001"[..2] == "00" && "00"[..1] == "0" && "0"[..0] == ""; }
    assert '0' <= Decimal(n)[0] <= '9';
  }

  lemma {:induction false} NumericClean(code: string, target: string, params: string, text: string)
    requires NoNewline(code) && code != "001" && code != "QUIT"
    requires NoNewline(target) && NoNewline(params) && NoNewline(text)
    ensures PlainReply(Numeric(code, target, params, text))
  {
  }

  lemma {:induction false} ErrClean(c: Client, n: Numeral, params: string)
    requires GoodClient(c) && NoNewline(params)
    ensures PlainReply(Err(c, n, params))
  {
    NumeralClean(n);
    TargetClean(c);
    NumericClean(n.Code(), ReplyTarget(c), params, n.Text());
  }

  lemma ParamClean(msg: Message, i: nat)
    requires CleanMessage(msg)
    ensures NoNewline(msg.Param(i))
  {
    if i < |msg.params| { assert msg.params[i] in msg.params; }
  }

  lemma ChannelMiddle(name: string)
    requires ValidChannel(name)
    ensures IsMiddle(name) && NoNewline(name)
  {
    ChannelIsPlain(name);
    assert name[0] in name;
  }

  lemma NickMiddle(name: string)
    requires ValidNick(name)
    ensures IsMiddle(name) && NoNewline(name)
  {
    NickIsPlain(name);
    assert name[0] in name;
  }

  lemma RegistrationAllowed(s: State, fd: int, msg: Message)
    requires Sound(s) && fd in s.clients && Parsed(msg)
    ensures var c := s.clients[fd];
            Allowed(s, fd, msg, DecidePass(s, c, msg)) && Allowed(s, fd, msg, DecideNick(s, fd, c, msg)) &&
            Allowed(s, fd, msg, DecideUser(c, msg))
  {
    var c := s.clients[fd];
    ParamClean(msg, 0);
    ParamClean(msg, 3);
    ErrClean(c, ERR_NEEDMOREPARAMS, "PASS");
    ErrClean(c, ERR_NEEDMOREPARAMS, "NICK");
    ErrClean(c, ERR_NEEDMOREPARAMS, "USER");
    ErrClean(c, ERR_ALREADYREGISTERED, "");
    ErrClean(c, ERR_ERRONEUSNICKNAME, msg.Param(0));
    NumeralClean(ERR_PASSWDMISMATCH);
    NumeralClean(ERR_NICKNAMEINUSE);
    assert PlainReply(PasswordMismatch());
    if ValidNick(msg.Param(0)) { assert PlainReply(NickInUse(msg.Param(0))); }
    if |msg.params| >= 4 { assert IsMiddle(msg.params[0]); }
  }

  lemma JoinAllowed(s: State, fd: int, msg: Message)
    requires Sound(s) && fd in s.clients && Parsed(msg)
    ensures Allowed(s, fd, msg, DecideJoin(s, fd, s.clients[fd], msg))
  {
    var c := s.clients[fd];
    ParamClean(msg, 0);
    ErrClean(c, ERR_NOTREGISTERED, "");
    ErrClean(c, ERR_NEEDMOREPARAMS, "JOIN");
    ErrClean(c, ERR_NOSUCHCHANNEL, msg.Param(0));
    ErrClean(c, ERR_INVITEONLYCHAN, msg.Param(0));
    ErrClean(c, ERR_BADCHANNELKEY, msg.Param(0));
    ErrClean(c, ERR_CHANNELISFULL, msg.Param(0));
  }

  lemma PartAllowed(s: State, fd: int, msg: Message)
    requires Sound(s) && fd in s.clients && Parsed(msg)
    ensures Allowed(s, fd, msg, DecidePart(s, fd, s.clients[fd], msg))
  {
    var c := s.clients[fd];
    ParamClean(msg, 0);
    ErrClean(c, ERR_NOTREGISTERED, "");
    ErrClean(c, ERR_NEEDMOREPARAMS, "PART");
    ErrClean(c, ERR_NOSUCHCHANNEL, msg.Param(0));
    ErrClean(c, ERR_NOTONCHANNEL, msg.Param(0));
  }

  lemma {:induction false} TextLineClean(c: Client, command: string, target: string, text: string)
    requires GoodClient(c) && command in {"PRIVMSG", "NOTICE"} && NoNewline(target) && NoNewline(text)
    ensures PlainReply(TextLine(c, command, target, text)) && NoNewline(command)
  {
    TargetClean(c);
  }

  lemma {:induction false} KickLineClean(c: Client, name: string, nick: string, reason: string)
    requires GoodClient(c) && NoNewline(name) && NoNewline(nick) && NoNewline(reason)
    ensures PlainReply(KickLine(c, name, nick, reason))
  {
    TargetClean(c);
  }

  lemma {:induction false} TopicReplyClean(c: Client, name: string, topic: string)
    requires GoodClient(c) && NoNewline(name) && NoNewline(topic)
    ensures PlainReply(TopicReply(c, name, topic))
  {
    TargetClean(c);
    if topic == "" { ErrClean(c, RPL_NOTOPIC, name); }
  }

  lemma TextAllowed(s: State, fd: int, msg: Message, command: string)
    requires Sound(s) && fd in s.clients && Parsed(msg) && command in {"PRIVMSG", "NOTICE"}
    ensures Allowed(s, fd, msg, DecideText(s, fd, s.clients[fd], msg, command))
  {
    var c, target := s.clients[fd], msg.Param(0);
    ParamClean(msg, 0);
    ParamClean(msg, 1);
    TextLineClean(c, command, target, msg.Param(1));
    if !c.registered {
      ErrClean(c, ERR_NOTREGISTERED, "");
    } else if |msg.params| < 2 {
      ErrClean(c, ERR_NEEDMOREPARAMS, command);
    } else {
      ErrClean(c, ERR_NOSUCHCHANNEL, target);
      ErrClean(c, ERR_CANNOTSENDTOCHAN, target);
      ErrClean(c, ERR_NOSUCHNICK, target);
      DeliverableAllowed(s, fd, msg, command);
    }
  }

  lemma {:induction false} DeliverableAllowed(s: State, fd: int, msg: Message, command: string)
    requires Sound(s) && fd in s.clients && Parsed(msg) && command in {"PRIVMSG", "NOTICE"}
    requires s.clients[fd].registered && |msg.params| >= 2
    requires PlainReply(TextLine(s.clients[fd], command, msg.Param(0), msg.Param(1)))
    ensures var target, line := msg.Param(0), TextLine(s.clients[fd], command, msg.Param(0), msg.Param(1));
            (OnChannel(s, fd, target) ==> Allowed(s, fd, msg, RelayAll(target, line))) &&
            (Holders(s, target) != {} ==> Allowed(s, fd, msg, RelayOne(Pick(Holders(s, target)), line)))
  {
    var target := msg.Param(0);
    assert IsMiddle(msg.params[0]);
    if Holders(s, target) != {} { HolderUnique(s, target, Pick(Holders(s, target))); }
  }

  lemma {:induction false} KickAllowed(s: State, fd: int, msg: Message)
    requires Sound(s) && fd in s.clients && Parsed(msg)
    ensures Allowed(s, fd, msg, DecideKick(s, fd, s.clients[fd], msg))
  {
    var c, name, nick := s.clients[fd], msg.Param(0), msg.Param(1);
    ParamClean(msg, 0);
    ParamClean(msg, 1);
    if !c.registered {
      ErrClean(c, ERR_NOTREGISTERED, "");
    } else if |msg.params| < 2 {
      ErrClean(c, ERR_NEEDMOREPARAMS, "KICK");
    } else if !OperatorOf(s, fd, name) || !OnChannel(s, fd, name) {
      ErrClean(c, ERR_NOSUCHCHANNEL, name);
      ErrClean(c, ERR_NOTONCHANNEL, name);
      ErrClean(c, ERR_CHANOPRIVSNEEDED, name);
    } else if !ValidNick(nick) || Holders(s, nick) == {} {
      ErrClean(c, ERR_NOSUCHCHANNEL, name);
      ErrClean(c, ERR_NOSUCHNICK, nick);
    } else {
      ErrClean(c, ERR_NOSUCHCHANNEL, name);
      ErrClean(c, ERR_USERNOTINCHANNEL, name);
      KickReasonClean(c, name, nick, msg);
      ExpelAllowed(s, fd, msg, name, Pick(Holders(s, nick)), KickLine(c, name, nick, KickReason(c, msg)));
    }
  }

  function KickReason(c: Client, msg: Message): string { if msg.HasParam(2) then msg.Param(2) else c.nick }

  lemma {:induction false} KickReasonClean(c: Client, name: string, nick: string, msg: Message)
    requires GoodClient(c) && CleanMessage(msg) && NoNewline(name) && NoNewline(nick)
    ensures PlainReply(KickLine(c, name, nick, KickReason(c, msg)))
  {
    ParamClean(msg, 2);
    if ValidNick(c.nick) { NickMiddle(c.nick); }
    KickLineClean(c, name, nick, KickReason(c, msg));
  }

  lemma {:induction false} ExpelAllowed(s: State, fd: int, msg: Message, name: string, who: int, line: Line)
    requires fd in s.clients && s.clients[fd].registered && OperatorOf(s, fd, name) && PlainReply(line)
    ensures OnChannel(s, who, name) ==> Allowed(s, fd, msg, Expel(name, who, line))
  {
  }

  lemma InviteAllowed(s: State, fd: int, msg: Message)
    requires Sound(s) && fd in s.clients && Parsed(msg)
    ensures Allowed(s, fd, msg, DecideInvite(s, fd, s.clients[fd], msg))
  {
    var c, nick, name := s.clients[fd], msg.Param(0), msg.Param(1);
    ParamClean(msg, 0);
    ParamClean(msg, 1);
    ErrClean(c, ERR_NOTREGISTERED, "");
    ErrClean(c, ERR_NEEDMOREPARAMS, "INVITE");
    ErrClean(c, ERR_NOSUCHNICK, nick);
    ErrClean(c, ERR_NOSUCHCHANNEL, name);
    ErrClean(c, ERR_NOTONCHANNEL, name);
    ErrClean(c, ERR_USERONCHANNEL, nick + " " + name);
    ErrClean(c, ERR_CHANOPRIVSNEEDED, name);
  }

  lemma TopicAllowed(s: State, fd: int, msg: Message)
    requires Sound(s) && fd in s.clients && Parsed(msg)
    ensures Allowed(s, fd, msg, DecideTopic(s, fd, s.clients[fd], msg))
  {
    var c, name := s.clients[fd], msg.Param(0);
    ParamClean(msg, 0);
    ParamClean(msg, 1);
    ErrClean(c, ERR_NOTREGISTERED, "");
    ErrClean(c, ERR_NEEDMOREPARAMS, "TOPIC");
    ErrClean(c, ERR_NOSUCHCHANNEL, name);
    ErrClean(c, ERR_NOTONCHANNEL, name);
    ErrClean(c, ERR_CHANOPRIVSNEEDED, name);
    if Exists(s, name) {
      assert GoodChannel(s.clients, Fold(name), Chan(s, name));
      TopicReplyClean(c, name, Chan(s, name).topic);
    }
  }

  lemma DigitsClean(n: nat)
    ensures NoNewline(Decimal(n))
  {
  }

  lemma ModeIsClean(c: Client, name: string, m: ChannelModes)
    requires GoodClient(c) && NoNewline(name) && NoNewline(m.key) && m.Valid()
    ensures PlainReply(ModeIsLine(ReplyTarget(c), name, m))
  {
    TargetClean(c);
    if m.limit >= 0 { DigitsClean(m.limit); }
    assert NoNewline(ArgumentText(m));
    assert NoNewline("+" + Letters(m));
  }

  lemma OpAllowed(s: State, fd: int, msg: Message, name: string, token: string)
    requires Sound(s) && fd in s.clients && Parsed(msg) && NoNewline(name)
    requires IsModeToken(token) && ValidChannel(name)
    requires s.clients[fd].registered && OperatorOf(s, fd, name)
    ensures Allowed(s, fd, msg, DecideOp(s, s.clients[fd], msg, name, token))
  {
    var c, nick := s.clients[fd], msg.Param(2);
    ParamClean(msg, 2);
    ModeParamsClean(name, token, nick);
    if !msg.HasParam(2) {
      ErrClean(c, ERR_NEEDMOREPARAMS, "MODE");
    } else if !ValidNick(nick) || Holders(s, nick) == {} {
      ErrClean(c, ERR_NOSUCHNICK, nick);
    } else if !OnChannel(s, Pick(Holders(s, nick)), name) {
      ErrClean(c, ERR_USERNOTINCHANNEL, name);
    }
  }

  lemma {:induction false} ChangeAllowed(s: State, fd: int, msg: Message, name: string, token: string)
    requires Sound(s) && fd in s.clients && Parsed(msg) && IsModeToken(token) && ValidChannel(name)
    requires s.clients[fd].registered && OperatorOf(s, fd, name)
    ensures Allowed(s, fd, msg, DecideChange(s.clients[fd], msg, name, token, Chan(s, name).modes))
  {
    var c, modes := s.clients[fd], Chan(s, name).modes;
    assert GoodChannel(s.clients, Fold(name), Chan(s, name));
    ParamClean(msg, 2);
    ChannelMiddle(name);
    ModeParamsClean(name, token, msg.Param(2));
    ErrClean(c, ERR_NEEDMOREPARAMS, "MODE");
    ErrClean(c, ERR_INVALIDMODEPARAM, name + " " + token + " " + msg.Param(2));
    var takes := token[0] == '+' && (token[1] == 'k' || token[1] == 'l');
    var arg := if takes && msg.HasParam(2) then Some(msg.Param(2)) else None;
    ChangedModesGood(modes, token, arg);
  }

  lemma {:induction false} ChangedModesGood(modes: ChannelModes, token: string, arg: Option<string>)
    requires modes.Valid() && NoNewline(modes.key) && IsModeToken(token) && (arg.Some? ==> NoNewline(arg.value))
    ensures var changed := Change(modes, token[0] == '+', token[1], arg);
            changed.Some? ==> changed.value.Valid() && NoNewline(changed.value.key)
  {
    ChangeValid(modes, token[0] == '+', token[1], arg);
  }

  lemma ModeParamsClean(name: string, token: string, arg: string)
    requires NoNewline(name) && IsModeToken(token) && NoNewline(arg)
    ensures NoNewline(token) && NoNewline(name + " " + token + " " + arg)
  {
  }

  lemma ModeAllowed(s: State, fd: int, msg: Message)
    requires Sound(s) && fd in s.clients && Parsed(msg)
    ensures Allowed(s, fd, msg, DecideMode(s, fd, s.clients[fd], msg))
  {
    var c, name, token := s.clients[fd], msg.Param(0), msg.Param(1);
    ParamClean(msg, 0);
    ParamClean(msg, 1);
    ParamClean(msg, 2);
    ErrClean(c, ERR_NOTREGISTERED, "");
    ErrClean(c, ERR_NEEDMOREPARAMS, "MODE");
    ErrClean(c, ERR_NOSUCHCHANNEL, name);
    ErrClean(c, ERR_NOTONCHANNEL, name);
    ErrClean(c, ERR_CHANOPRIVSNEEDED, name);
    ErrClean(c, ERR_UNKNOWNMODE, token);
    if c.registered && |msg.params| >= 1 && ValidChannel(name) && Exists(s, name) && OnChannel(s, fd, name) {
      var modes := Chan(s, name).modes;
      ModeIsClean(c, name, modes);
      if |msg.params| > 1 && OperatorOf(s, fd, name) && IsModeToken(token) {
        if token[1] == 'o' {
          OpAllowed(s, fd, msg, name, token);
        } else {
          ChangeAllowed(s, fd, msg, name, token);
        }
      }
    }
  }

  /** Every decision of the dispatcher is one its sender is entitled to. */
  lemma DecideAllowed(s: State, fd: int, msg: Message)
    requires Sound(s) && fd in s.clients && Parsed(msg)
    ensures Allowed(s, fd, msg, Decide(s, fd, msg)) && Fits(VerbOf(msg.command), Decide(s, fd, msg))
  {
    match VerbOf(msg.command)
    case PASS | NICK | USER => RegistrationAllowed(s, fd, msg);
    case JOIN => JoinAllowed(s, fd, msg);
    case PART => PartAllowed(s, fd, msg);
    case PRIVMSG => TextAllowed(s, fd, msg, "PRIVMSG");
    case NOTICE => TextAllowed(s, fd, msg, "NOTICE");
    case KICK => KickAllowed(s, fd, msg);
    case INVITE => InviteAllowed(s, fd, msg);
    case TOPIC => TopicAllowed(s, fd, msg);
    case MODE => ModeAllowed(s, fd, msg);
    case PING | PONG | UNKNOWN => AnswerAllowed(s, fd, msg, VerbOf(msg.command));
    case _ =>
  }

  /** The commands that change nothing. */
  lemma AnswerAllowed(s: State, fd: int, msg: Message, verb: Verb)
    requires Sound(s) && fd in s.clients && Parsed(msg) && (verb.PING? || verb.PONG? || verb.UNKNOWN?)
    ensures Allowed(s, fd, msg, DecideVerb(s, fd, msg, verb))
  {
    var c := s.clients[fd];
    if verb.PING? {
      ParamClean(msg, 0);
      PongClean(msg.Param(0));
      ErrClean(c, ERR_NEEDMOREPARAMS, "PING");
    } else if verb.PONG? {
      ErrClean(c, ERR_NEEDMOREPARAMS, "PONG");
    } else {
      ErrClean(c, ERR_UNKNOWNCOMMAND, msg.command);
    }
  }

  lemma {:induction false} PongClean(token: string)
    requires NoNewline(token)
    ensures PlainReply(Pong(token))
  {
    assert NoNewline(SERVER_NAME);
  }

  // ----- What a command does keeps the state sound -----------------------------------------

  lemma ClientUpdateSound(s: State, fd: int, c: Client)
    requires Sound(s) && fd in s.clients && GoodClient(c)
    requires s.clients[fd].registered ==> c.registered
    requires c.nick != s.clients[fd].nick ==> Holders(s, c.nick) <= {fd}
    ensures Sound(WithClient(s, fd, c))
  {
    var s' := WithClient(s, fd, c);
    if c.nick != s.clients[fd].nick {
      assert forall f :: f in s.clients && f != fd && s.clients[f].nick != "" ==> f !in Holders(s, c.nick);
      if c.nick != "" {
        forall f | f in s.clients && f != fd && s.clients[f].nick == ""
          ensures Fold(s.clients[f].nick) != Fold(c.nick)
        {
          assert |Fold(c.nick)| != 0;
        }
      }
    }
    assert DistinctNicks(s'.clients);
    forall k | k in s'.channels ensures GoodChannel(s'.clients, k, s'.channels[k]) {
      assert GoodChannel(s.clients, k, s.channels[k]);
    }
  }

  lemma ChannelUpdateSound(s: State, name: string, ch: Channel)
    requires Sound(s) && GoodChannel(s.clients, Fold(name), ch)
    ensures Sound(WithChannel(s, name, ch))
  {
  }

  lemma RemoveMemberSound(s: State, fd: int, name: string)
    requires Sound(s)
    ensures Sound(RemoveMember(s, fd, name))
  {
    if OnChannel(s, fd, name) {
      var ch := Chan(s, name);
      assert GoodChannel(s.clients, Fold(name), ch);
      if ch.members != {fd} {
        assert Strip(ch, fd).members != {} by { assert ch.members - {fd} == {} ==> ch.members == {fd}; }
        ChannelUpdateSound(s, name, Strip(ch, fd));
      }
    }
  }

  lemma AddMemberSound(s: State, fd: int, name: string)
    requires Sound(s) && fd in s.clients && s.clients[fd].registered && ValidChannel(name)
    ensures Sound(AddMember(s, fd, name))
  {
    if !Exists(s, name) {
      ChannelUpdateSound(s, name, Channel(name, "", {fd}, {fd}, {}, NO_MODES));
    } else if !OnChannel(s, fd, name) {
      var ch := Chan(s, name);
      assert GoodChannel(s.clients, Fold(name), ch);
      var ch' := ch.(members := ch.members + {fd}, invited := ch.invited - {fd});
      assert fd in ch'.members;
      ChannelUpdateSound(s, name, ch');
    }
  }

  lemma EraseSound(s: State, fd: int)
    requires Sound(s)
    ensures Sound(Erase(s, fd))
  {
    var s' := Erase(s, fd);
    forall k | k in s'.channels ensures GoodChannel(s'.clients, k, s'.channels[k]) {
      var ch := s.channels[k];
      assert GoodChannel(s.clients, k, ch);
      assert ch.members - {fd} != {} by { assert ch.members - {fd} == {} ==> ch.members <= {fd}; }
    }
  }

  lemma ApplySound(s: State, fd: int, msg: Message, eff: Effect)
    requires Sound(s) && fd in s.clients && Allowed(s, fd, msg, eff)
    ensures Sound(Apply(s, fd, eff))
  {
    var c := s.clients[fd];
    match eff
    case AcceptPass => ClientUpdateSound(s, fd, c.(passOk := true));
    case TakeNick(nick) => ClientUpdateSound(s, fd, MaybeRegister(c.(nick := nick)));
    case TakeUser(u, r) => ClientUpdateSound(s, fd, MaybeRegister(c.(username := u, realname := r)));
    case Enter(name) => AddMemberSound(s, fd, name);
    case Depart(name) => RemoveMemberSound(s, fd, name);
    case Expel(name, who, _) => RemoveMemberSound(s, who, name);
    case InviteIn(name, who, _) =>
      assert GoodChannel(s.clients, Fold(name), Chan(s, name));
      ChannelUpdateSound(s, name, Chan(s, name).(invited := Chan(s, name).invited + {who}));
    case ChangeTopic(name, topic) =>
      assert GoodChannel(s.clients, Fold(name), Chan(s, name));
      ChannelUpdateSound(s, name, Chan(s, name).(topic := topic));
    case ChangeModes(name, modes, _, _) =>
      assert GoodChannel(s.clients, Fold(name), Chan(s, name));
      ChannelUpdateSound(s, name, Chan(s, name).(modes := modes));
    case ChangeOp(name, who, grant, _, _) =>
      var ch := Chan(s, name);
      assert GoodChannel(s.clients, Fold(name), ch);
      ChannelUpdateSound(s, name, ch.(ops := if grant then ch.ops + {who} else ch.ops - {who}));
    case _ =>
  }

  // ----- What an effect can change at all ----------------------------------------------------

  function Invited(s: State, k: string): set<int> { if k in s.channels then s.channels[k].invited else {} }

  function Members(s: State, k: string): set<int> { if k in s.channels then s.channels[k].members else {} }

  /** Only entering adds a member, and only inviting adds an invited client. */
  lemma {:induction false} EffectOnMembers(s: State, fd: int, eff: Effect, k: string)
    requires fd in s.clients && !(eff.Enter? && Fold(eff.name) == k)
    ensures Members(Apply(s, fd, eff), k) <= Members(s, k)
  {
  }

  lemma {:induction false} EffectOnInvited(s: State, fd: int, eff: Effect, k: string)
    requires fd in s.clients && !(eff.InviteIn? && Fold(eff.name) == k)
    ensures Invited(Apply(s, fd, eff), k) <= Invited(s, k)
  {
  }

  /** Only leaving and being expelled remove a member. */
  lemma {:induction false} EffectKeepsMember(s: State, fd: int, eff: Effect, k: string, f: int)
    requires fd in s.clients && f in Members(s, k) && !(eff.Depart? && f == fd) && !(eff.Expel? && f == eff.who)
    ensures f in Members(Apply(s, fd, eff), k)
  {
  }

  lemma {:induction false} EffectOnModes(s: State, fd: int, eff: Effect, k: string)
    requires fd in s.clients && k in s.channels && k in Apply(s, fd, eff).channels
    requires !(eff.ChangeModes? && Fold(eff.name) == k)
    ensures Apply(s, fd, eff).channels[k].modes == s.channels[k].modes
  {
  }

  lemma {:induction false} EffectOnOps(s: State, fd: int, eff: Effect, k: string)
    requires fd in s.clients && k in s.channels && k in Apply(s, fd, eff).channels
    requires !(eff.ChangeOp? && Fold(eff.name) == k)
    ensures Apply(s, fd, eff).channels[k].ops <= s.channels[k].ops
  {
  }

  lemma {:induction false} EffectOnTopic(s: State, fd: int, eff: Effect, k: string)
    requires fd in s.clients && k in s.channels && k in Apply(s, fd, eff).channels
    requires !(eff.ChangeTopic? && Fold(eff.name) == k)
    ensures Apply(s, fd, eff).channels[k].topic == s.channels[k].topic
  {
  }

  lemma {:induction false} EffectOnClient(s: State, fd: int, eff: Effect, f: int)
    requires fd in s.clients && f in s.clients
    requires !(f == fd && (eff.AcceptPass? || eff.TakeNick? || eff.TakeUser?))
    ensures f in Apply(s, fd, eff).clients && Apply(s, fd, eff).clients[f] == s.clients[f]
  {
  }

  /** Who stays on the channel keeps its operator flag. */
  lemma {:induction false} EffectKeepsOp(s: State, fd: int, eff: Effect, k: string, f: int)
    requires fd in s.clients && k in s.channels && k in Apply(s, fd, eff).channels
    requires f in s.channels[k].ops && f in Apply(s, fd, eff).channels[k].members
    requires !(eff.ChangeOp? && Fold(eff.name) == k) && f in s.channels[k].members
    ensures f in Apply(s, fd, eff).channels[k].ops
  {
  }

  /** An invitation is used up by entering and by nothing else. */
  lemma {:induction false} EffectKeepsInvitation(s: State, fd: int, eff: Effect, k: string, f: int)
    requires fd in s.clients && k in s.channels && k in Apply(s, fd, eff).channels
    requires f in s.channels[k].invited && s.channels[k].invited !! s.channels[k].members && !(eff.Enter? && f == fd)
    ensures f in Apply(s, fd, eff).channels[k].invited
  {
  }

  /** A channel keeps its name, and it is gone only when its last member leaves it. */
  lemma {:induction false} EffectKeepsChannel(s: State, fd: int, eff: Effect, k: string)
    requires fd in s.clients && k in s.channels
    ensures k in Apply(s, fd, eff).channels ==> Apply(s, fd, eff).channels[k].name == s.channels[k].name
    ensures k !in Apply(s, fd, eff).channels ==>
              (eff.Depart? && s.channels[k].members == {fd}) || (eff.Expel? && s.channels[k].members == {eff.who})
  {
  }
}
