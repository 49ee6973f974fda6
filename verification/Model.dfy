/** The meaning of the IRC commands on a plain state: clients by fd, channels by folded name,
    membership kept once, nicknames found by scanning all clients. The object graph of
    ServerGraph.dfy, with its two client indexes and two-sided membership, is proved to behave
    like this state; the run theorems are proved about it. */
module Model {
  import opened IrcText
  import opened Wire
  import opened Modes

  datatype Client = Client(
    nick: string, username: string, realname: string, host: string, passOk: bool, registered: bool)

  datatype Channel = Channel(
    name: string, topic: string, members: set<int>, ops: set<int>, invited: set<int>, modes: ChannelModes)

  datatype State = State(password: string, clients: map<int, Client>, channels: map<string, Channel>)

  /** A message for the client on `fd`. */
  datatype Out = Out(fd: int, line: Line)

  // ----- Line formats (src/b/ReplyBuilder.cpp) ----------------------------------------------

  function FullPrefix(c: Client): string { c.nick + "!" + c.username + "@" + c.host }

  function ReplyTarget(c: Client): string { if c.nick == "" then "*" else c.nick }

  function Numeric(code: string, target: string, params: string, text: string): Line {
    Line(SERVER_NAME, code, [target] + (if params == "" then [] else [params]), Some(text))
  }

  /** The numerics with a fixed text. */
  datatype Numeral =
    | RPL_NOTOPIC | RPL_ENDOFNAMES | ERR_NOSUCHNICK
    | ERR_NOSUCHCHANNEL | ERR_CANNOTSENDTOCHAN | ERR_UNKNOWNCOMMAND
    | ERR_ERRONEUSNICKNAME | ERR_NICKNAMEINUSE | ERR_USERNOTINCHANNEL
    | ERR_NOTONCHANNEL | ERR_USERONCHANNEL | ERR_NOTREGISTERED
    | ERR_NEEDMOREPARAMS | ERR_ALREADYREGISTERED | ERR_PASSWDMISMATCH
    | ERR_CHANNELISFULL | ERR_UNKNOWNMODE | ERR_INVITEONLYCHAN
    | ERR_BADCHANNELKEY | ERR_CHANOPRIVSNEEDED | ERR_INVALIDMODEPARAM
  {
    function Number(): (n: nat)
      ensures n > 1
    {
      match this
      case RPL_NOTOPIC => 331
      case RPL_ENDOFNAMES => 366
      case ERR_NOSUCHNICK => 401
      case ERR_NOSUCHCHANNEL => 403
      case ERR_CANNOTSENDTOCHAN => 404
      case ERR_UNKNOWNCOMMAND => 421
      case ERR_ERRONEUSNICKNAME => 432
      case ERR_NICKNAMEINUSE => 433
      case ERR_USERNOTINCHANNEL => 441
      case ERR_NOTONCHANNEL => 442
      case ERR_USERONCHANNEL => 443
      case ERR_NOTREGISTERED => 451
      case ERR_NEEDMOREPARAMS => 461
      case ERR_ALREADYREGISTERED => 462
      case ERR_PASSWDMISMATCH => 464
      case ERR_CHANNELISFULL => 471
      case ERR_UNKNOWNMODE => 472
      case ERR_INVITEONLYCHAN => 473
      case ERR_BADCHANNELKEY => 475
      case ERR_CHANOPRIVSNEEDED => 482
      case ERR_INVALIDMODEPARAM => 696
    }

    function Code(): string { Decimal(Number()) }

    function Text(): string {
      match this
      case RPL_NOTOPIC => "No topic is set"
      case RPL_ENDOFNAMES => "End of /NAMES list"
      case ERR_NOSUCHNICK => "No such nick/channel"
      case ERR_NOSUCHCHANNEL => "No such channel"
      case ERR_CANNOTSENDTOCHAN => "Cannot send to channel"
      case ERR_UNKNOWNCOMMAND => "Unknown command"
      case ERR_ERRONEUSNICKNAME => "Erroneous nickname"
      case ERR_NICKNAMEINUSE => "Nickname is already in use"
      case ERR_USERNOTINCHANNEL => "You are not on that channel"
      case ERR_NOTONCHANNEL => "You are not on that channel"
      case ERR_USERONCHANNEL => "is already on channel"
      case ERR_NOTREGISTERED => ":You have not registered"
      case ERR_NEEDMOREPARAMS => "Not enough parameters"
      case ERR_ALREADYREGISTERED => "You may not reregister"
      case ERR_PASSWDMISMATCH => "Password incorrect"
      case ERR_CHANNELISFULL => "Cannot join channel (+l)"
      case ERR_UNKNOWNMODE => "is unknown mode char to me"
      case ERR_INVITEONLYCHAN => "Cannot join channel (+i)"
      case ERR_BADCHANNELKEY => "Cannot join channel (+k)"
      case ERR_CHANOPRIVSNEEDED => "You are not channel operator"
      case ERR_INVALIDMODEPARAM => "Invalid mode parameter"
    }
  }

  /** A numeric with its standard text, addressed to `c`. */
  function Err(c: Client, n: Numeral, params: string): Line {
    Numeric(n.Code(), ReplyTarget(c), params, n.Text())
  }

  function PasswordMismatch(): Line { Numeric(ERR_PASSWDMISMATCH.Code(), "*", "", ERR_PASSWDMISMATCH.Text()) }

  function NickInUse(nick: string): Line { Numeric(ERR_NICKNAMEINUSE.Code(), "*", nick, ERR_NICKNAMEINUSE.Text()) }

  function Welcome(c: Client): Line {
    Numeric("001", c.nick, "", "Welcome to the IRC Network " + FullPrefix(c))
  }

  function Pong(token: string): Line { Line(SERVER_NAME, "PONG", [SERVER_NAME], Some(token)) }

  function TopicReply(c: Client, name: string, topic: string): Line {
    if topic == "" then Err(c, RPL_NOTOPIC, name) else Numeric("332", ReplyTarget(c), name, topic)
  }

  function Inviting(c: Client, nick: string, name: string): Line {
    Line(SERVER_NAME, "341", [ReplyTarget(c), nick, name], None)
  }

  function InviteLine(c: Client, nick: string, name: string): Line {
    Line(FullPrefix(c), "INVITE", [nick], Some(name))
  }

  function ChannelLine(c: Client, command: string, name: string): Line {
    Line(FullPrefix(c), command, [name], None)
  }

  function TextLine(c: Client, command: string, target: string, text: string): Line {
    Line(FullPrefix(c), command, [target], Some(text))
  }

  function KickLine(c: Client, name: string, nick: string, reason: string): Line {
    Line(FullPrefix(c), "KICK", [name, nick], Some(reason))
  }

  function QuitLine(c: Client, reason: string): Line { Line(FullPrefix(c), "QUIT", [], Some(reason)) }

  function ModeLine(c: Client, name: string, token: string, arg: string): Line {
    Line(FullPrefix(c), "MODE", [name, token] + (if arg == "" then [] else [arg]), None)
  }

  /** The member list of a NAMES reply, in the order the member map is walked. */
  function Names(clients: map<int, Client>, ops: set<int>, order: seq<int>): string {
    if order == [] then ""
    else
      var f := order[|order| - 1];
      var front := Names(clients, ops, order[..|order| - 1]);
      (if front == "" then "" else front + " ") +
      (if f in ops then "@" else "") + (if f in clients then clients[f].nick else "")
  }

  function NamesLine(c: Client, clients: map<int, Client>, ch: Channel, order: seq<int>): Line {
    Numeric("353", ReplyTarget(c), "= " + ch.name, Names(clients, ch.ops, order))
  }

  // ----- Queries ----------------------------------------------------------------------------

  /** The clients holding `nick` under case folding: a scan of everybody. */
  function Holders(s: State, nick: string): set<int> {
    set f | f in s.clients && s.clients[f].nick != "" && Fold(s.clients[f].nick) == Fold(nick)
  }

  /** The holders are the clients whose nickname is the same but for the case of its letters. */
  lemma {:induction false} HeldBy(s: State, nick: string, f: int)
    ensures f in Holders(s, nick) <==> f in s.clients && s.clients[f].nick != "" && SameName(s.clients[f].nick, nick)
  {
    if f in s.clients { NamesFold(s.clients[f].nick, nick); }
  }

  lemma HasElement(fds: set<int>)
    requires fds != {}
    ensures exists f :: f in fds
  {
    assert (forall f :: f !in fds) ==> fds == {};
  }

  ghost function Pick(fds: set<int>): (f: int)
    requires fds != {}
    ensures f in fds
  {
    HasElement(fds);
    var f :| f in fds; f
  }

  predicate Exists(s: State, name: string) { Fold(name) in s.channels }

  function Chan(s: State, name: string): Channel
    requires Exists(s, name)
  {
    s.channels[Fold(name)]
  }

  predicate OnChannel(s: State, fd: int, name: string) { Exists(s, name) && fd in Chan(s, name).members }

  predicate OperatorOf(s: State, fd: int, name: string) { Exists(s, name) && fd in Chan(s, name).ops }

  // ----- What a command asks for ------------------------------------------------------------

  /** The one thing a dispatched command does. Names are spelled as the sender typed them. */
  datatype Effect =
    | Ignore
    | Reply(line: Line)
    | AcceptPass
    | TakeNick(nick: string)
    | TakeUser(username: string, realname: string)
    | Enter(name: string)
    | Depart(name: string)
    | RelayAll(name: string, line: Line)
    | RelayOne(to: int, line: Line)
    | Expel(name: string, who: int, line: Line)
    | InviteIn(name: string, who: int, nick: string)
    | ChangeTopic(name: string, topic: string)
    | ChangeModes(name: string, modes: ChannelModes, token: string, arg: string)
    | ChangeOp(name: string, who: int, grant: bool, token: string, nick: string)
    | Quit
    | Heartbeat(token: string)

  datatype Verb =
    | PING | QUIT | PASS | NICK | USER | JOIN | PART | PRIVMSG | NOTICE | KICK | INVITE | TOPIC | MODE | PONG
    | UNKNOWN | NOTHING

  /** The dispatch chain: the first name that matches. */
  function VerbOf(command: string): Verb {
    if command == "PING" then PING
    else if command == "QUIT" then QUIT
    else if command == "PASS" then PASS
    else if command == "NICK" then NICK
    else if command == "USER" then USER
    else if command == "JOIN" then JOIN
    else if command == "PART" then PART
    else if command == "PRIVMSG" then PRIVMSG
    else if command == "NOTICE" then NOTICE
    else if command == "KICK" then KICK
    else if command == "INVITE" then INVITE
    else if command == "TOPIC" then TOPIC
    else if command == "MODE" then MODE
    else if command == "PONG" then PONG
    else if command != "" then UNKNOWN
    else NOTHING
  }

  function Name(verb: Verb): string {
    match verb
    case PING => "PING"
    case QUIT => "QUIT"
    case PASS => "PASS"
    case NICK => "NICK"
    case USER => "USER"
    case JOIN => "JOIN"
    case PART => "PART"
    case PRIVMSG => "PRIVMSG"
    case NOTICE => "NOTICE"
    case KICK => "KICK"
    case INVITE => "INVITE"
    case TOPIC => "TOPIC"
    case MODE => "MODE"
    case PONG => "PONG"
    case _ => ""
  }

  lemma {:induction false} NameChosen(command: string)
    requires !VerbOf(command).UNKNOWN?
    ensures command == Name(VerbOf(command))
  {
  }

  lemma {:induction false} NameFound(verb: Verb)
    requires !verb.UNKNOWN?
    ensures VerbOf(Name(verb)) == verb
  {
  }

  lemma {:induction false} Spelled(command: string, verb: Verb)
    requires !verb.UNKNOWN?
    ensures VerbOf(command) == verb <==> command == Name(verb)
  {
    if VerbOf(command) == verb { NameChosen(command); }
    if command == Name(verb) { NameFound(verb); }
  }

  ghost function Decide(s: State, fd: int, msg: Message): Effect
    requires fd in s.clients
  {
    DecideVerb(s, fd, msg, VerbOf(msg.command))
  }

  /** The effects a verb can have besides a plain reply. */
  predicate Fits(verb: Verb, eff: Effect) {
    match eff
    case Ignore => true
    case Reply(_) => true
    case Quit => verb.QUIT?
    case Heartbeat(_) => verb.PONG?
    case AcceptPass => verb.PASS?
    case TakeNick(_) => verb.NICK?
    case TakeUser(_, _) => verb.USER?
    case Enter(_) => verb.JOIN?
    case Depart(_) => verb.PART?
    case RelayAll(_, _) => verb.PRIVMSG? || verb.NOTICE?
    case RelayOne(_, _) => verb.PRIVMSG? || verb.NOTICE?
    case Expel(_, _, _) => verb.KICK?
    case InviteIn(_, _, _) => verb.INVITE?
    case ChangeTopic(_, _) => verb.TOPIC?
    case ChangeModes(_, _, _, _) => verb.MODE?
    case ChangeOp(_, _, _, _, _) => verb.MODE?
  }

  ghost function DecideVerb(s: State, fd: int, msg: Message, verb: Verb): (eff: Effect)
    requires fd in s.clients
    ensures Fits(verb, eff)
  {
    var c := s.clients[fd];
    match verb
    case PING => if !msg.HasParam(0) then Reply(Err(c, ERR_NEEDMOREPARAMS, "PING")) else Reply(Pong(msg.Param(0)))
    case QUIT => Quit
    case PASS => DecidePass(s, c, msg)
    case NICK => DecideNick(s, fd, c, msg)
    case USER => DecideUser(c, msg)
    case JOIN => DecideJoin(s, fd, c, msg)
    case PART => DecidePart(s, fd, c, msg)
    case PRIVMSG => DecideText(s, fd, c, msg, "PRIVMSG")
    case NOTICE => DecideText(s, fd, c, msg, "NOTICE")
    case KICK => DecideKick(s, fd, c, msg)
    case INVITE => DecideInvite(s, fd, c, msg)
    case TOPIC => DecideTopic(s, fd, c, msg)
    case MODE => DecideMode(s, fd, c, msg)
    case PONG =>
      if !msg.HasParam(0) then Reply(Err(c, ERR_NEEDMOREPARAMS, "PONG")) else Heartbeat(msg.Param(|msg.params| - 1))
    case UNKNOWN => Reply(Err(c, ERR_UNKNOWNCOMMAND, msg.command))
    case NOTHING => Ignore
  }

  function DecidePass(s: State, c: Client, msg: Message): (eff: Effect)
    ensures eff.Reply? || eff.AcceptPass?
  {
    if !msg.HasParam(0) then Reply(Err(c, ERR_NEEDMOREPARAMS, "PASS"))
    else if c.registered then Reply(Err(c, ERR_ALREADYREGISTERED, ""))
    else if msg.Param(0) != s.password then Reply(PasswordMismatch())
    else AcceptPass
  }

  function DecideNick(s: State, fd: int, c: Client, msg: Message): (eff: Effect)
    ensures eff.Reply? || eff.TakeNick?
  {
    var nick := msg.Param(0);
    if !c.passOk then Reply(PasswordMismatch())
    else if !msg.HasParam(0) then Reply(Err(c, ERR_NEEDMOREPARAMS, "NICK"))
    else if !ValidNick(nick) then Reply(Err(c, ERR_ERRONEUSNICKNAME, nick))
    else if Holders(s, nick) - {fd} != {} then Reply(NickInUse(nick))
    else TakeNick(nick)
  }

  function DecideUser(c: Client, msg: Message): (eff: Effect)
    ensures eff.Reply? || eff.TakeUser?
  {
    if !c.passOk then Reply(PasswordMismatch())
    else if |msg.params| < 4 then Reply(Err(c, ERR_NEEDMOREPARAMS, "USER"))
    else if c.registered then Reply(Err(c, ERR_ALREADYREGISTERED, ""))
    else TakeUser(msg.Param(0), msg.Param(3))
  }

  /** The three admission gates, in the order they are tried: the numeric that refuses entry. */
  function Refusal(ch: Channel, fd: int, msg: Message): Option<Numeral> {
    if ch.modes.inviteOnly && fd !in ch.invited then Some(ERR_INVITEONLYCHAN)
    else if ch.modes.hasKey && (!msg.HasParam(1) || msg.Param(1) != ch.modes.key) then Some(ERR_BADCHANNELKEY)
    else if ch.modes.limit >= 0 && |ch.members| >= ch.modes.limit then Some(ERR_CHANNELISFULL)
    else None
  }

  function DecideJoin(s: State, fd: int, c: Client, msg: Message): (eff: Effect)
    ensures eff.Reply? || eff.Enter?
  {
    var name := msg.Param(0);
    if !c.registered then Reply(Err(c, ERR_NOTREGISTERED, ""))
    else if !msg.HasParam(0) then Reply(Err(c, ERR_NEEDMOREPARAMS, "JOIN"))
    else if !ValidChannel(name) then Reply(Err(c, ERR_NOSUCHCHANNEL, name))
    else if Exists(s, name) && !OnChannel(s, fd, name) && Refusal(Chan(s, name), fd, msg).Some? then
      Reply(Err(c, Refusal(Chan(s, name), fd, msg).value, name))
    else Enter(name)
  }

  function DecidePart(s: State, fd: int, c: Client, msg: Message): (eff: Effect)
    ensures eff.Reply? || eff.Depart?
  {
    var name := msg.Param(0);
    if !c.registered then Reply(Err(c, ERR_NOTREGISTERED, ""))
    else if !msg.HasParam(0) then Reply(Err(c, ERR_NEEDMOREPARAMS, "PART"))
    else if !ValidChannel(name) || !Exists(s, name) then Reply(Err(c, ERR_NOSUCHCHANNEL, name))
    else if !OnChannel(s, fd, name) then Reply(Err(c, ERR_NOTONCHANNEL, name))
    else Depart(name)
  }

  /** PRIVMSG reports its errors, NOTICE keeps silent. */
  ghost function DecideText(s: State, fd: int, c: Client, msg: Message, command: string): (eff: Effect)
    ensures eff.Ignore? || eff.Reply? || eff.RelayAll? || eff.RelayOne?
  {
    var complain := (line: Line) => if command == "PRIVMSG" then Reply(line) else Ignore;
    var target := msg.Param(0);
    var line := TextLine(c, command, target, msg.Param(1));
    if !c.registered then complain(Err(c, ERR_NOTREGISTERED, ""))
    else if |msg.params| < 2 then complain(Err(c, ERR_NEEDMOREPARAMS, command))
    else if target != "" && target[0] == '#' then
      if !ValidChannel(target) || !Exists(s, target) then complain(Err(c, ERR_NOSUCHCHANNEL, target))
      else if !OnChannel(s, fd, target) then complain(Err(c, ERR_CANNOTSENDTOCHAN, target))
      else RelayAll(target, line)
    else if !ValidNick(target) || Holders(s, target) == {} then complain(Err(c, ERR_NOSUCHNICK, target))
    else RelayOne(Pick(Holders(s, target)), line)
  }

  ghost function DecideKick(s: State, fd: int, c: Client, msg: Message): (eff: Effect)
    ensures eff.Reply? || eff.Expel?
  {
    var name, nick := msg.Param(0), msg.Param(1);
    if !c.registered then Reply(Err(c, ERR_NOTREGISTERED, ""))
    else if |msg.params| < 2 then Reply(Err(c, ERR_NEEDMOREPARAMS, "KICK"))
    else if !ValidChannel(name) || !Exists(s, name) then Reply(Err(c, ERR_NOSUCHCHANNEL, name))
    else if !OnChannel(s, fd, name) then Reply(Err(c, ERR_NOTONCHANNEL, name))
    else if !OperatorOf(s, fd, name) then Reply(Err(c, ERR_CHANOPRIVSNEEDED, name))
    else if !ValidNick(nick) || Holders(s, nick) == {} then Reply(Err(c, ERR_NOSUCHNICK, nick))
    else if !OnChannel(s, Pick(Holders(s, nick)), name) then Reply(Err(c, ERR_USERNOTINCHANNEL, name))
    else Expel(name, Pick(Holders(s, nick)), KickLine(c, name, nick, if msg.HasParam(2) then msg.Param(2) else c.nick))
  }

  ghost function DecideInvite(s: State, fd: int, c: Client, msg: Message): (eff: Effect)
    ensures eff.Reply? || eff.InviteIn?
  {
    var nick, name := msg.Param(0), msg.Param(1);
    if !c.registered then Reply(Err(c, ERR_NOTREGISTERED, ""))
    else if |msg.params| < 2 then Reply(Err(c, ERR_NEEDMOREPARAMS, "INVITE"))
    else if !ValidNick(nick) then Reply(Err(c, ERR_NOSUCHNICK, nick))
    else if !ValidChannel(name) then Reply(Err(c, ERR_NOSUCHCHANNEL, name))
    else if Holders(s, nick) == {} then Reply(Err(c, ERR_NOSUCHNICK, nick))
    else if !Exists(s, name) then Reply(Err(c, ERR_NOSUCHCHANNEL, name))
    else if !OnChannel(s, fd, name) then Reply(Err(c, ERR_NOTONCHANNEL, name))
    else if OnChannel(s, Pick(Holders(s, nick)), name) then Reply(Err(c, ERR_USERONCHANNEL, nick + " " + name))
    else if Chan(s, name).modes.inviteOnly && !OperatorOf(s, fd, name) then Reply(Err(c, ERR_CHANOPRIVSNEEDED, name))
    else InviteIn(name, Pick(Holders(s, nick)), nick)
  }

  function DecideTopic(s: State, fd: int, c: Client, msg: Message): (eff: Effect)
    ensures eff.Reply? || eff.ChangeTopic?
  {
    var name := msg.Param(0);
    if !c.registered then Reply(Err(c, ERR_NOTREGISTERED, ""))
    else if !msg.HasParam(0) then Reply(Err(c, ERR_NEEDMOREPARAMS, "TOPIC"))
    else if !ValidChannel(name) || !Exists(s, name) then Reply(Err(c, ERR_NOSUCHCHANNEL, name))
    else if !OnChannel(s, fd, name) then Reply(Err(c, ERR_NOTONCHANNEL, name))
    else if !msg.HasParam(1) then Reply(TopicReply(c, name, Chan(s, name).topic))
    else if Chan(s, name).modes.topicRestricted && !OperatorOf(s, fd, name) then
      Reply(Err(c, ERR_CHANOPRIVSNEEDED, name))
    else ChangeTopic(name, msg.Param(1))
  }

  predicate IsModeToken(token: string) {
    |token| == 2 && token[0] in "+-" && token[1] in "itkol"
  }

  ghost function DecideMode(s: State, fd: int, c: Client, msg: Message): (eff: Effect)
    ensures eff.Reply? || eff.ChangeModes? || eff.ChangeOp?
  {
    var name, token := msg.Param(0), msg.Param(1);
    if !c.registered then Reply(Err(c, ERR_NOTREGISTERED, ""))
    else if |msg.params| < 1 then Reply(Err(c, ERR_NEEDMOREPARAMS, "MODE"))
    else if !ValidChannel(name) || !Exists(s, name) then Reply(Err(c, ERR_NOSUCHCHANNEL, name))
    else if !OnChannel(s, fd, name) then Reply(Err(c, ERR_NOTONCHANNEL, name))
    else if |msg.params| == 1 then Reply(ModeIsLine(ReplyTarget(c), name, Chan(s, name).modes))
    else if !OperatorOf(s, fd, name) then Reply(Err(c, ERR_CHANOPRIVSNEEDED, name))
    else if !IsModeToken(token) then Reply(Err(c, ERR_UNKNOWNMODE, token))
    else if token[1] == 'o' then DecideOp(s, c, msg, name, token)
    else DecideChange(c, msg, name, token, Chan(s, name).modes)
  }

  function DecideChange(c: Client, msg: Message, name: string, token: string, modes: ChannelModes): (eff: Effect)
    requires IsModeToken(token)
    ensures eff.Reply? || eff.ChangeModes?
  {
    var adding := token[0] == '+';
    var takes := adding && (token[1] == 'k' || token[1] == 'l');
    var arg := if takes && msg.HasParam(2) then Some(msg.Param(2)) else None;
    match Change(modes, adding, token[1], arg)
    case Some(changed) => ChangeModes(name, changed, token, if arg.Some? then arg.value else "")
    case None =>
      if arg.None? then Reply(Err(c, ERR_NEEDMOREPARAMS, "MODE"))
      else Reply(Err(c, ERR_INVALIDMODEPARAM, name + " " + token + " " + arg.value))
  }

  ghost function DecideOp(s: State, c: Client, msg: Message, name: string, token: string): (eff: Effect)
    requires IsModeToken(token)
    ensures eff.Reply? || eff.ChangeOp?
  {
    var nick := msg.Param(2);
    if !msg.HasParam(2) then Reply(Err(c, ERR_NEEDMOREPARAMS, "MODE"))
    else if !ValidNick(nick) || Holders(s, nick) == {} then Reply(Err(c, ERR_NOSUCHNICK, nick))
    else if !OnChannel(s, Pick(Holders(s, nick)), name) then Reply(Err(c, ERR_USERNOTINCHANNEL, name))
    else ChangeOp(name, Pick(Holders(s, nick)), token[0] == '+', token, nick)
  }

  // ----- What an effect does to the state ---------------------------------------------------

  predicate CanRegister(c: Client) { c.passOk && c.nick != "" && c.username != "" && c.realname != "" }

  function MaybeRegister(c: Client): Client {
    if !c.registered && CanRegister(c) then c.(registered := true) else c
  }

  function WithClient(s: State, fd: int, c: Client): State { s.(clients := s.clients[fd := c]) }

  function WithChannel(s: State, name: string, ch: Channel): State { s.(channels := s.channels[Fold(name) := ch]) }

  function AddMember(s: State, fd: int, name: string): State {
    if !Exists(s, name) then WithChannel(s, name, Channel(name, "", {fd}, {fd}, {}, NO_MODES))
    else if OnChannel(s, fd, name) then s
    else
      var ch := Chan(s, name);
      WithChannel(s, name, ch.(members := ch.members + {fd}, invited := ch.invited - {fd}))
  }

  function Strip(ch: Channel, fd: int): Channel {
    ch.(members := ch.members - {fd}, ops := ch.ops - {fd}, invited := ch.invited - {fd})
  }

  /** The last member to leave takes the channel with it. */
  function RemoveMember(s: State, fd: int, name: string): State {
    if !OnChannel(s, fd, name) then s
    else if Chan(s, name).members == {fd} then s.(channels := s.channels - {Fold(name)})
    else WithChannel(s, name, Strip(Chan(s, name), fd))
  }

  /** Only `fd` is forgotten: everywhere, and with it the channels it was alone on. */
  function Erase(s: State, fd: int): State {
    s.(clients := s.clients - {fd},
       channels := map k | k in s.channels && s.channels[k].members != {fd} :: Strip(s.channels[k], fd))
  }

  function Apply(s: State, fd: int, eff: Effect): State
    requires fd in s.clients
  {
    var c := s.clients[fd];
    match eff
    case AcceptPass => WithClient(s, fd, c.(passOk := true))
    case TakeNick(nick) => WithClient(s, fd, MaybeRegister(c.(nick := nick)))
    case TakeUser(u, r) => WithClient(s, fd, MaybeRegister(c.(username := u, realname := r)))
    case Enter(name) => AddMember(s, fd, name)
    case Depart(name) => RemoveMember(s, fd, name)
    case Expel(name, who, _) => RemoveMember(s, who, name)
    case InviteIn(name, who, _) =>
      if Exists(s, name) then WithChannel(s, name, Chan(s, name).(invited := Chan(s, name).invited + {who})) else s
    case ChangeTopic(name, topic) =>
      if Exists(s, name) then WithChannel(s, name, Chan(s, name).(topic := topic)) else s
    case ChangeModes(name, modes, _, _) =>
      if Exists(s, name) then WithChannel(s, name, Chan(s, name).(modes := modes)) else s
    case ChangeOp(name, who, grant, _, _) =>
      if Exists(s, name) then
        var ch := Chan(s, name);
        WithChannel(s, name, ch.(ops := if grant then ch.ops + {who} else ch.ops - {who}))
      else s
    case _ => s
  }

  // ----- What an effect says ----------------------------------------------------------------

  /** The clients the member loop of the command walks over. */
  function Audience(s: State, fd: int, eff: Effect): set<int> {
    match eff
    case Enter(name) => (if Exists(s, name) then Chan(s, name).members else {}) + {fd}
    case Depart(name) => if Exists(s, name) then Chan(s, name).members else {}
    case RelayAll(name, _) => if Exists(s, name) then Chan(s, name).members else {}
    case Expel(name, _, _) => if Exists(s, name) then Chan(s, name).members else {}
    case ChangeTopic(name, _) => if Exists(s, name) then Chan(s, name).members else {}
    case ChangeModes(name, _, _, _) => if Exists(s, name) then Chan(s, name).members else {}
    case ChangeOp(name, _, _, _, _) => if Exists(s, name) then Chan(s, name).members else {}
    case _ => {}
  }

  /** `order` lists `fds`, each once: the order in which a pointer-keyed map happens to be walked. */
  ghost predicate Enumerates(order: seq<int>, fds: set<int>) {
    (forall f :: f in order <==> f in fds) && forall i, j :: 0 <= i < j < |order| ==> order[i] != order[j]
  }

  function ToAll(order: seq<int>, line: Line, except: int): seq<Out> {
    if order == [] then []
    else
      ToAll(order[..|order| - 1], line, except) +
      (if order[|order| - 1] != except then [Out(order[|order| - 1], line)] else [])
  }

  function Emit(s: State, fd: int, eff: Effect, order: seq<int>): seq<Out>
    requires fd in s.clients
  {
    var c := s.clients[fd];
    match eff
    case Reply(line) => [Out(fd, line)]
    case TakeNick(nick) => WelcomeIfNew(fd, c, MaybeRegister(c.(nick := nick)))
    case TakeUser(u, r) => WelcomeIfNew(fd, c, MaybeRegister(c.(username := u, realname := r)))
    case Enter(name) =>
      var ch := Chan(AddMember(s, fd, name), name);
      ToAll(order, ChannelLine(c, "JOIN", name), -1) +
      [Out(fd, TopicReply(c, name, ch.topic)), Out(fd, NamesLine(c, s.clients, ch, order)),
       Out(fd, Err(c, RPL_ENDOFNAMES, name))]
    case Depart(name) => ToAll(order, ChannelLine(c, "PART", name), -1)
    case RelayAll(name, line) => ToAll(order, line, fd)
    case RelayOne(to, line) => [Out(to, line)]
    case Expel(name, who, line) => ToAll(order, line, -1)
    case InviteIn(name, who, nick) => [Out(fd, Inviting(c, nick, name)), Out(who, InviteLine(c, nick, name))]
    case ChangeTopic(name, topic) => ToAll(order, TextLine(c, "TOPIC", name, topic), -1)
    case ChangeModes(name, modes, token, arg) => ToAll(order, ModeLine(c, name, token, arg), -1)
    case ChangeOp(name, who, grant, token, nick) => ToAll(order, ModeLine(c, name, token, nick), -1)
    case _ => []
  }

  function WelcomeIfNew(fd: int, before: Client, after: Client): seq<Out> {
    if !before.registered && after.registered then [Out(fd, Welcome(after))] else []
  }

  /** Everybody else on some channel with `fd`. */
  function Peers(s: State, fd: int): set<int> {
    set k, f | k in s.channels && fd in s.channels[k].members && f in s.channels[k].members && f != fd :: f
  }
}
