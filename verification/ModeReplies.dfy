/** What MODE answers, sends and sets (src/b/ChannelCommandHandler.cpp). */
module ModeReplies {
  import opened IrcText
  import opened Wire
  import opened Modes
  import opened Model
  import opened Soundness
  import opened Runs
  import opened CommandTheorems
  import opened Wording
  import opened Replies

  // ----- The query --------------------------------------------------------------------------

  /** Which modes a text of letters shows. */
  predicate Shows(letters: string, m: ChannelModes) {
    (forall x <- letters :: x in "itkl") && (forall i, j :: 0 <= i < j < |letters| ==> letters[i] != letters[j]) &&
    ('i' in letters <==> m.inviteOnly) && ('t' in letters <==> m.topicRestricted) &&
    ('k' in letters <==> m.hasKey) && ('l' in letters <==> m.limit >= 0)
  }

  lemma {:induction false} LettersShow(m: ChannelModes)
    ensures Shows(Letters(m), m)
  {
  }

  lemma {:induction false} QueryRead(target: string, channel: string, m: ChannelModes)
    requires IsMiddle(target) && IsMiddle(channel)
    ensures var back := Parse(Render(ModeIsLine(target, channel, m)));
            back.prefix == "irc.local" && back.command == "324" &&
            back.params == [target, channel, "+" + Letters(m)] +
              Params(if ArgumentText(m) == "" then "" else " " + ArgumentText(m))
  {
    var args := if ArgumentText(m) == "" then "" else " " + ArgumentText(m);
    ModeLineParams(target, channel, m, [target, channel, "+" + Letters(m)], args);
    ModeIsGoodHead(target, channel, m);
    ParseOfHead(ModeIsLine(target, channel, m));
    assert Upper("324") == "324";
  }

  /** A replay that ends with a key has used it as the first argument. */
  lemma {:induction false} ReplayedKey(m: ChannelModes, letters: string, args: seq<string>, key: string)
    requires Replay(m, letters, args).Some? && Replay(m, letters, args).value.hasKey
    requires Replay(m, letters, args).value.key == key && 'l' !in BeforeKey(letters) && 'k' in letters
    requires forall i, j :: 0 <= i < j < |letters| ==> letters[i] != letters[j]
    ensures args != [] && args[0] == key
    decreases |letters|
  {
    var x := letters[0];
    if x == 'k' {
      assert 'k' !in letters[1..];
      KeyStays(Change(m, true, 'k', if args != [] then Some(args[0]) else None).value, letters[1..], args[1..]);
    } else {
      assert letters == [x] + letters[1..];
      ReplayedKey(Change(m, true, x, None).value, letters[1..], args, key);
    }
  }

  function BeforeKey(letters: string): string {
    if letters == "" || letters[0] == 'k' then "" else [letters[0]] + BeforeKey(letters[1..])
  }

  lemma {:induction false} KeyStays(m: ChannelModes, letters: string, args: seq<string>)
    requires Replay(m, letters, args).Some? && 'k' !in letters
    ensures Replay(m, letters, args).value.key == m.key
    decreases |letters|
  {
    if letters != "" {
      var takes := letters[0] == 'k' || letters[0] == 'l';
      var arg := if takes && args != [] then Some(args[0]) else None;
      assert letters[0] in letters;
      KeyStays(Change(m, true, letters[0], arg).value, letters[1..], if takes then args[1..] else args);
    }
  }

  /** How many of the letters take an argument. */
  function Takers(letters: string): nat {
    if letters == "" then 0 else (if letters[0] in "kl" then 1 else 0) + Takers(letters[1..])
  }

  lemma {:induction false} ReplayTakes(m: ChannelModes, letters: string, args: seq<string>)
    requires Replay(m, letters, args).Some?
    ensures |args| == Takers(letters)
    decreases |letters|
  {
    if letters != "" {
      var takes := letters[0] == 'k' || letters[0] == 'l';
      var arg := if takes && args != [] then Some(args[0]) else None;
      ReplayTakes(Change(m, true, letters[0], arg).value, letters[1..], if takes then args[1..] else args);
    }
  }

  /** Reading the reply back: the letters, replayed with what the parser makes of the arguments,
      give the modes exactly when the key, if there is one, is fit to be a parameter. */
  lemma {:induction false} ReplayReadsBack(m: ChannelModes, args: seq<string>)
    requires m.Valid() && args == Params(if ArgumentText(m) == "" then "" else " " + ArgumentText(m))
    ensures Replay(NO_MODES, Letters(m), args) == Some(m) <==> (m.hasKey ==> IsMiddle(m.key))
  {
    ReplayRebuilds(m);
    if m.hasKey ==> IsMiddle(m.key) {
      ArgumentsReadBack(m);
    } else if Replay(NO_MODES, Letters(m), args) == Some(m) {
      LettersShow(m);
      KeyFirst(m);
      ReplayedKey(NO_MODES, Letters(m), args, m.key);
      ReplayTakes(NO_MODES, Letters(m), args);
      ReplayTakes(NO_MODES, Letters(m), Arguments(m));
      KeyIsLost(m, if ArgumentText(m) == "" then "" else " " + ArgumentText(m));
      assert false;
    }
  }

  lemma {:induction false} KeyFirst(m: ChannelModes)
    requires m.hasKey
    ensures 'l' !in BeforeKey(Letters(m))
  {
    var before := (if m.inviteOnly then "i" else "") + if m.topicRestricted then "t" else "";
    var after := "k" + if m.limit >= 0 then "l" else "";
    assert Letters(m) == before + after;
    BeforeKeyOf(before, after);
  }

  lemma {:induction false} BeforeKeyOf(before: string, after: string)
    requires 'k' !in before && after != "" && after[0] == 'k'
    ensures BeforeKey(before + after) == before
  {
    if before == "" {
      assert before + after == after;
    } else {
      assert before[0] in before && (before + after)[1..] == before[1..] + after;
      BeforeKeyOf(before[1..], after);
    }
  }

  /** A member's MODE with nothing but the channel changes nothing and gets one reply, a 324 about
      that channel: its letters are the modes that are set, and a client that replays what it
      parses gets exactly the modes of the channel unless the key cannot be a parameter. */
  lemma {:induction false} ModeQueryIff(s: State, e: Event) returns (l: Line)
    requires Issues(s, e, MODE) && Passes(s, e.fd, Parse(e.line), 1) && |Parse(e.line).params| == 1
    ensures Next(s, e) == s && Outputs(s, e) == [Out(e.fd, l)]
    ensures var name := Parse(e.line).params[0];
            Answers(Parse(Render(l)), Addressee(s.clients[e.fd]), name, Chan(s, name).modes)
  {
    var msg := Parse(e.line);
    DoesVerb(s, e, MODE);
    ModeDecided(s, e.fd, msg);
    l := DecideVerb(s, e.fd, msg, MODE).line;
    QuerySent(s, e, DecideVerb(s, e.fd, msg, MODE));
    QueryAnswers(s, e.fd, msg.params[0], l);
  }

  ghost predicate Answers(back: Message, target: string, name: string, m: ChannelModes) {
    back.prefix == "irc.local" && back.command == "324" && |back.params| >= 3 &&
    back.params[0] == target && back.params[1] == name && back.params[2] != "" && back.params[2][0] == '+' &&
    Shows(back.params[2][1..], m) &&
    (Replay(NO_MODES, back.params[2][1..], back.params[3..]) == Some(m) <==> (m.hasKey ==> IsMiddle(m.key)))
  }

  lemma {:induction false} QuerySent(s: State, e: Event, eff: Effect)
    requires Does(s, e, eff) && eff.Reply?
    ensures Next(s, e) == s && Outputs(s, e) == [Out(e.fd, eff.line)]
  {
    OpenDoes(s, e, eff);
  }

  lemma {:induction false} QueryAnswers(s: State, fd: int, name: string, l: Line)
    requires Sound(s) && fd in s.clients && Exists(s, name)
    requires l == ModeIsLine(Addressee(s.clients[fd]), name, Chan(s, name).modes)
    ensures Answers(Parse(Render(l)), Addressee(s.clients[fd]), name, Chan(s, name).modes)
  {
    var m := Chan(s, name).modes;
    TargetClean(s.clients[fd]);
    ValidIfExists(s, name);
    ChannelMiddle(name);
    assert GoodChannel(s.clients, Fold(name), Chan(s, name));
    QueryRead(Addressee(s.clients[fd]), name, m);
    LettersShow(m);
    var args := Params(if ArgumentText(m) == "" then "" else " " + ArgumentText(m));
    ReplayReadsBack(m, args);
    AnswersAre(Parse(Render(l)), Addressee(s.clients[fd]), name, m, args);
  }

  lemma {:induction false} AnswersAre(back: Message, target: string, name: string, m: ChannelModes, args: seq<string>)
    requires back.prefix == "irc.local" && back.command == "324"
    requires back.params == [target, name, "+" + Letters(m)] + args && Shows(Letters(m), m)
    requires Replay(NO_MODES, Letters(m), args) == Some(m) <==> (m.hasKey ==> IsMiddle(m.key))
    ensures Answers(back, target, name, m)
  {
    assert back.params[2][1..] == Letters(m) && back.params[3..] == args;
  }

  // ----- What MODE sends --------------------------------------------------------------------

  /** MODE with more than the channel: each refusal; otherwise every member is told the change. */
  lemma {:induction false} ModeReplies(s: State, e: Event)
    requires Issues(s, e, MODE)
    ensures ModeAnswers(s, e, s.clients[e.fd], Parse(e.line))
  {
    DoesVerb(s, e, MODE);
    ModeDecided(s, e.fd, Parse(e.line));
    ModeTold(s, e, s.clients[e.fd], Parse(e.line), DecideVerb(s, e.fd, Parse(e.line), MODE));
  }

  const TOKENS := {"+i", "-i", "+t", "-t", "+k", "-k", "+l", "-l", "+o", "-o"}

  ghost predicate GoodLimit(value: string) { exists n :: 1 <= n <= 0x7fff_ffff && Spells(CString(value), n) }

  ghost predicate ModeAnswers(s: State, e: Event, c: Client, msg: Message)
    requires e.fd in s.clients
  {
    if !Passes(s, e.fd, msg, 1) then GateAnswers(s, e, msg, "MODE", 1)
    else |msg.params| > 1 ==>
      var name, token := msg.params[0], msg.params[1];
      if !OperatorOf(s, e.fd, name) then Tells(s, e, "482", name, "You are not channel operator")
      else if token !in TOKENS then Tells(s, e, "472", token, "is unknown mode char to me")
      else if token in {"+k", "+l", "+o", "-o"} && |msg.params| == 2 then
        Tells(s, e, "461", "MODE", "Not enough parameters")
      else if token in {"+o", "-o"} then OpAnswers(s, e, c, name, token, msg.params[2])
      else if token == "+l" && !GoodLimit(msg.params[2]) then
        Tells(s, e, "696", name + " " + token + " " + msg.params[2], "Invalid mode parameter")
      else TellsChange(s, e, c, name, token, if token in {"+k", "+l"} then msg.params[2] else "")
  }

  ghost predicate OpAnswers(s: State, e: Event, c: Client, name: string, token: string, nick: string)
    requires e.fd in s.clients && Exists(s, name)
  {
    if !ValidNick(nick) || Holders(s, nick) == {} then Tells(s, e, "401", nick, "No such nick/channel")
    else if Holders(s, nick) !! Chan(s, name).members then Tells(s, e, "441", name, "You are not on that channel")
    else TellsChange(s, e, c, name, token, nick)
  }

  ghost predicate TellsChange(s: State, e: Event, c: Client, name: string, token: string, arg: string)
    requires Exists(s, name)
  {
    Gets(s, e, Chan(s, name).members,
      FromClient(c, "MODE " + name + " " + token + if arg == "" then "" else " " + arg))
  }

  // ----- Why --------------------------------------------------------------------------------

  predicate ModeDecides(s: State, fd: int, msg: Message, eff: Effect)
    requires fd in s.clients
  {
    var c, name, token := s.clients[fd], msg.Param(0), msg.Param(1);
    if !Passes(s, fd, msg, 1) then GateDecides(s, fd, msg, "MODE", 1, eff)
    else if |msg.params| == 1 then eff == Reply(ModeIsLine(Addressee(c), name, Chan(s, name).modes))
    else if !OperatorOf(s, fd, name) then eff == Reply(Err(c, ERR_CHANOPRIVSNEEDED, name))
    else if !IsModeToken(token) then eff == Reply(Err(c, ERR_UNKNOWNMODE, token))
    else if token[1] == 'o' then OpDecides(s, c, msg, name, token, eff)
    else ChangeDecides(c, msg, name, token, Chan(s, name).modes, eff)
  }

  predicate OpDecides(s: State, c: Client, msg: Message, name: string, token: string, eff: Effect)
    requires Exists(s, name) && token != ""
  {
    var nick := msg.Param(2);
    if |msg.params| == 2 then eff == Reply(Err(c, ERR_NEEDMOREPARAMS, "MODE"))
    else if !ValidNick(nick) || Holders(s, nick) == {} then eff == Reply(Err(c, ERR_NOSUCHNICK, nick))
    else if Holders(s, nick) !! Chan(s, name).members then eff == Reply(Err(c, ERR_USERNOTINCHANNEL, name))
    else
      eff.ChangeOp? && eff.name == name && eff.token == token && eff.nick == nick &&
      eff.grant == (token[0] == '+') && Holders(s, nick) == {eff.who}
  }

  predicate ChangeDecides(c: Client, msg: Message, name: string, token: string, modes: ChannelModes, eff: Effect)
    requires |token| == 2
  {
    var takes := token[0] == '+' && (token[1] == 'k' || token[1] == 'l');
    var arg := if takes && |msg.params| > 2 then Some(msg.params[2]) else None;
    var changed := Change(modes, token[0] == '+', token[1], arg);
    if changed.Some? then eff == ChangeModes(name, changed.value, token, if arg.Some? then arg.value else "")
    else if arg.None? then eff == Reply(Err(c, ERR_NEEDMOREPARAMS, "MODE"))
    else eff == Reply(Err(c, ERR_INVALIDMODEPARAM, name + " " + token + " " + arg.value))
  }

  lemma {:induction false} ModeDecided(s: State, fd: int, msg: Message)
    requires Sound(s) && fd in s.clients
    ensures ModeDecides(s, fd, msg, DecideVerb(s, fd, msg, MODE))
  {
    var c, name, token := s.clients[fd], msg.Param(0), msg.Param(1);
    assert DecideVerb(s, fd, msg, MODE) == DecideMode(s, fd, c, msg);
    if Exists(s, name) {
      ValidIfExists(s, name);
      if IsModeToken(token) && |msg.params| > 1 {
        OpDecided(s, c, msg, name, token);
        ChangeDecided(c, msg, name, token, Chan(s, name).modes);
      }
    }
  }

  lemma {:induction false} OpDecided(s: State, c: Client, msg: Message, name: string, token: string)
    requires Sound(s) && Exists(s, name) && IsModeToken(token) && |msg.params| > 1
    ensures OpDecides(s, c, msg, name, token, DecideOp(s, c, msg, name, token))
  {
    if Holders(s, msg.Param(2)) != {} { SoleHolder(s, msg.Param(2)); }
  }

  lemma {:induction false} ChangeDecided(c: Client, msg: Message, name: string, token: string, modes: ChannelModes)
    requires IsModeToken(token) && |msg.params| > 1
    ensures ChangeDecides(c, msg, name, token, modes, DecideChange(c, msg, name, token, modes))
  {
  }

  lemma {:induction false} Tokens(token: string)
    ensures IsModeToken(token) <==> token in TOKENS
    ensures IsModeToken(token) ==> (token[1] == 'o' <==> token in {"+o", "-o"})
    ensures IsModeToken(token) ==> (token[0] == '+' && (token[1] == 'k' || token[1] == 'l') <==> token in {"+k", "+l"})
    ensures IsModeToken(token) ==> (token[0] == '+' && token[1] == 'l' <==> token == "+l")
  {
    if |token| == 2 { assert token == [token[0], token[1]]; }
  }

  lemma {:induction false} ModeTold(s: State, e: Event, c: Client, msg: Message, eff: Effect)
    requires e.Command? && Does(s, e, eff) && e.fd in s.clients && c == s.clients[e.fd]
    requires ModeDecides(s, e.fd, msg, eff)
    ensures ModeAnswers(s, e, c, msg)
  {
    var name, token := msg.Param(0), msg.Param(1);
    if !Passes(s, e.fd, msg, 1) {
      GateTold(s, e, msg, "MODE", 1, eff);
    } else if |msg.params| > 1 {
      Tokens(token);
      GatesWorded();
      ModesWorded();
      if !OperatorOf(s, e.fd, name) {
        ErrSent(s, e, eff, ERR_CHANOPRIVSNEEDED, "482", name, "You are not channel operator");
      } else if token !in TOKENS {
        ErrSent(s, e, eff, ERR_UNKNOWNMODE, "472", token, "is unknown mode char to me");
      } else if token in {"+o", "-o"} {
        OpTold(s, e, c, msg, name, token, eff);
      } else {
        ChangeTold(s, e, c, msg, name, token, eff);
      }
    }
  }

  lemma {:induction false} OpTold(s: State, e: Event, c: Client, msg: Message, name: string, token: string, eff: Effect)
    requires e.Command? && Does(s, e, eff) && e.fd in s.clients && c == s.clients[e.fd] && |msg.params| >= 2
    requires Exists(s, name) && token != "" && OpDecides(s, c, msg, name, token, eff)
    ensures if |msg.params| == 2 then Tells(s, e, "461", "MODE", "Not enough parameters")
            else OpAnswers(s, e, c, name, token, msg.params[2])
  {
    var nick := msg.Param(2);
    if |msg.params| == 2 {
      RegistrationWorded();
      ErrSent(s, e, eff, ERR_NEEDMOREPARAMS, "461", "MODE", "Not enough parameters");
    } else if !ValidNick(nick) || Holders(s, nick) == {} {
      NamesWorded();
      ErrSent(s, e, eff, ERR_NOSUCHNICK, "401", nick, "No such nick/channel");
    } else if Holders(s, nick) !! Chan(s, name).members {
      MembersWorded();
      ErrSent(s, e, eff, ERR_USERNOTINCHANNEL, "441", name, "You are not on that channel");
    } else {
      ModeBytes(c, name, token, nick);
      MembersTold(s, e, eff, name, ModeLine(c, name, token, nick));
    }
  }

  /** When a change cannot be made. */
  lemma {:induction false} ChangeRefused(modes: ChannelModes, token: string, arg: Option<string>)
    requires token in TOKENS && token !in {"+o", "-o"} && (token !in {"+k", "+l"} ==> arg.None?)
    ensures Change(modes, token[0] == '+', token[1], arg).None? <==>
            (token in {"+k", "+l"} && arg.None?) || (token == "+l" && arg.Some? && !GoodLimit(arg.value))
  {
    Tokens(token);
    if arg.Some? { GoodLimitRead(arg.value); }
  }

  lemma {:induction false} GoodLimitRead(value: string)
    ensures GoodLimit(value) <==> ParsePositiveLimit(value).Some?
  {
    if ParsePositiveLimit(value).Some? { LimitAcceptedIff(value, ParsePositiveLimit(value).value); }
    forall n | 1 <= n <= 0x7fff_ffff && Spells(CString(value), n) ensures ParsePositiveLimit(value) == Some(n) {
      LimitAcceptedIff(value, n);
    }
  }

  lemma {:induction false} ChangeTold(s: State, e: Event, c: Client, msg: Message, name: string, token: string,
                                      eff: Effect)
    requires e.Command? && Does(s, e, eff) && e.fd in s.clients && c == s.clients[e.fd] && |msg.params| >= 2
    requires Exists(s, name) && token in TOKENS && token !in {"+o", "-o"}
    requires |token| == 2 && ChangeDecides(c, msg, name, token, Chan(s, name).modes, eff)
    ensures if token in {"+k", "+l"} && |msg.params| == 2 then Tells(s, e, "461", "MODE", "Not enough parameters")
            else if token == "+l" && !GoodLimit(msg.params[2]) then
              Tells(s, e, "696", name + " " + token + " " + msg.params[2], "Invalid mode parameter")
            else TellsChange(s, e, c, name, token, if token in {"+k", "+l"} then msg.params[2] else "")
  {
    Tokens(token);
    var arg := if token in {"+k", "+l"} && |msg.params| > 2 then Some(msg.params[2]) else None;
    ChangeRefused(Chan(s, name).modes, token, arg);
    if token in {"+k", "+l"} && |msg.params| == 2 {
      RegistrationWorded();
      ErrSent(s, e, eff, ERR_NEEDMOREPARAMS, "461", "MODE", "Not enough parameters");
    } else if token == "+l" && !GoodLimit(msg.params[2]) {
      ModesWorded();
      ErrSent(s, e, eff, ERR_INVALIDMODEPARAM, "696", name + " " + token + " " + msg.params[2],
        "Invalid mode parameter");
    } else {
      ModeBytes(c, name, token, eff.arg);
      MembersTold(s, e, eff, name, ModeLine(c, name, token, eff.arg));
    }
  }

  // ----- What MODE sets ---------------------------------------------------------------------

  /** `after` is `before` with the one change that the token and its argument ask for, whatever was
      set before: a new key or limit takes the place of an old one. */
  ghost predicate Sets(before: ChannelModes, token: string, arg: Option<string>, after: ChannelModes) {
    if token in {"+i", "-i"} then after == before.(inviteOnly := token == "+i")
    else if token in {"+t", "-t"} then after == before.(topicRestricted := token == "+t")
    else if token == "+k" && arg.Some? then after == before.(hasKey := true, key := arg.value)
    else if token == "-k" then after == before.(hasKey := false, key := "")
    else if token == "+l" && arg.Some? && GoodLimit(arg.value) then
      after == before.(limit := after.limit) && 1 <= after.limit <= 0x7fff_ffff &&
      Spells(CString(arg.value), after.limit)
    else if token == "-l" then after == before.(limit := -1)
    else after == before
  }

  /** `f` is an operator afterwards. */
  predicate Promotes(s: State, ch: Channel, token: string, nick: Option<string>, f: int) {
    if token in {"+o", "-o"} && nick.Some? && ValidNick(nick.value) && f in Holders(s, nick.value) && f in ch.members
    then token == "+o" else f in ch.ops
  }

  function Third(msg: Message): Option<string> { if |msg.params| > 2 then Some(msg.params[2]) else None }

  /** What an operator's MODE sets, by the text of its second parameter. */
  lemma {:induction false} ModeSets(s: State, e: Event, f: int)
    requires Issues(s, e, MODE) && |Parse(e.line).params| > 1 && OperatorOf(s, e.fd, Parse(e.line).params[0])
    ensures var msg := Parse(e.line);
            var name, token := msg.params[0], msg.params[1];
            Exists(Next(s, e), name) &&
            Sets(Chan(s, name).modes, token, Third(msg), Chan(Next(s, e), name).modes) &&
            (f in Chan(Next(s, e), name).ops <==> Promotes(s, Chan(s, name), token, Third(msg), f))
  {
    var msg := Parse(e.line);
    ModeIff(s, e, f);
    RequestedSets(Chan(s, msg.params[0]).modes, msg, Chan(Next(s, e), msg.params[0]).modes);
    Tokens(msg.params[1]);
  }

  lemma {:induction false} RequestedSets(before: ChannelModes, msg: Message, after: ChannelModes)
    requires |msg.params| > 1
    requires var asked := Requested(before, msg); after == if asked.Some? then asked.value else before
    ensures Sets(before, msg.params[1], Third(msg), after)
  {
    var token := msg.params[1];
    Tokens(token);
    if token in TOKENS && token !in {"+o", "-o"} {
      var takes := token in {"+k", "+l"};
      var arg := if takes then Third(msg) else None;
      assert Requested(before, msg) == Change(before, token[0] == '+', token[1], arg);
      ChangeSets(before, token, arg, after);
    } else {
      assert Requested(before, msg).None?;
    }
  }

  lemma {:induction false} ChangeSets(before: ChannelModes, token: string, arg: Option<string>, after: ChannelModes)
    requires token in TOKENS && token !in {"+o", "-o"}
    requires var r := Change(before, token[0] == '+', token[1], arg); after == if r.Some? then r.value else before
    ensures Sets(before, token, arg, after)
  {
    if token == "+l" && arg.Some? { LimitSets(before, arg.value, after); }
  }

  lemma {:induction false} LimitSets(before: ChannelModes, value: string, after: ChannelModes)
    requires var r := Change(before, true, 'l', Some(value)); after == if r.Some? then r.value else before
    ensures if GoodLimit(value) then
              after == before.(limit := after.limit) && 1 <= after.limit <= 0x7fff_ffff &&
              Spells(CString(value), after.limit)
            else after == before
  {
    GoodLimitRead(value);
    if ParsePositiveLimit(value).Some? { LimitAcceptedIff(value, ParsePositiveLimit(value).value); }
  }
}
