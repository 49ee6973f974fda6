/** The mode query over runs: the commands that rebuild the queried modes, and keys that the reply
    to a query cannot carry (src/b/ChannelCommandHandler.cpp). */
module ModeTheorems {
  import opened IrcText
  import opened Wire
  import opened Modes
  import opened Model
  import opened Soundness
  import opened Runs

  // ----- Commands as lines ------------------------------------------------------------------

  /** What a client sends to set a mode. */
  function ModeCommand(name: string, letter: char, arg: Option<string>): Line {
    Line("", "MODE", [name, ['+', letter]], arg)
  }

  lemma {:induction false} CommandRead(l: Line)
    requires WellFormed(l) && CleanLine(l) && Upper(l.command) == l.command
    ensures NoNewline(Body(l)) && Parse(Body(l)) == Message(l.prefix, l.command, AllParams(l))
  {
    BodyClean(l);
    ParseOfRender(l);
    assert StripTerminator(Body(l)) == Body(l) by {
      if Body(l) != "" { assert Body(l)[|Body(l)| - 1] in Body(l); }
    }
  }

  lemma {:induction false} ModeSpelled()
    ensures Upper("MODE") == "MODE" && SpaceFree("MODE") && NoNewline("MODE") && "MODE"[0] != ':'
  {
  }

  lemma {:induction false} ModeCommandRead(name: string, letter: char, arg: Option<string>)
    requires ValidChannel(name) && letter in "itkl" && (arg.Some? ==> NoNewline(arg.value))
    ensures var line := Body(ModeCommand(name, letter, arg));
            NoNewline(line) && Parse(line).command == "MODE" &&
            Parse(line).params == [name, ['+', letter]] + if arg.Some? then [arg.value] else []
  {
    var l := ModeCommand(name, letter, arg);
    ModeSpelled();
    ChannelMiddle(name);
    assert IsMiddle(l.middles[1]) && NoNewline(l.middles[1]);
    assert forall m <- l.middles :: m == l.middles[0] || m == l.middles[1];
    CommandRead(l);
  }

  // ----- Rebuilding the modes ---------------------------------------------------------------

  function WithModes(s: State, name: string, modes: ChannelModes): State
    requires Exists(s, name)
  {
    WithChannel(s, name, Chan(s, name).(modes := modes))
  }

  /** An operator's `MODE name +x [arg]` is a possible next event and sets the mode. */
  lemma {:induction false} ModeCommandStep(s: State, fd: int, name: string, letter: char, arg: Option<string>,
                                           order: seq<int>, modes: ChannelModes)
    requires Sound(s) && OperatorOf(s, fd, name) && ValidChannel(name) && Enumerates(order, Chan(s, name).members)
    requires letter in "itkl" && (arg.Some? ==> NoNewline(arg.value) && letter in "kl")
    requires Change(Chan(s, name).modes, true, letter, arg) == Some(modes)
    ensures var e := Command(fd, Body(ModeCommand(name, letter, arg)), order);
            Enabled(s, e) && Next(s, e) == WithModes(s, name, modes)
  {
    OperatorFacts(s, fd, name);
    var line := Body(ModeCommand(name, letter, arg));
    ModeCommandRead(name, letter, arg);
    ModeSettled(s, fd, name, letter, arg, Parse(line), modes);
    ModeRuns(s, fd, name, line, order, modes);
  }

  lemma {:induction false} OperatorFacts(s: State, fd: int, name: string)
    requires Sound(s) && OperatorOf(s, fd, name)
    ensures fd in s.clients && s.clients[fd].registered && OnChannel(s, fd, name)
  {
    assert GoodChannel(s.clients, Fold(name), Chan(s, name));
  }

  lemma {:induction false} ModeRuns(s: State, fd: int, name: string, line: string, order: seq<int>, modes: ChannelModes)
    requires fd in s.clients && Exists(s, name) && Enumerates(order, Chan(s, name).members)
    requires NoNewline(line) && Parse(line).command == "MODE"
    requires var eff := DecideMode(s, fd, s.clients[fd], Parse(line));
             eff.ChangeModes? && eff.name == name && eff.modes == modes
    ensures var e := Command(fd, line, order); Enabled(s, e) && Next(s, e) == WithModes(s, name, modes)
  {
    var msg := Parse(line);
    Spelled(msg.command, MODE);
    ModesApplied(s, fd, Decide(s, fd, msg), name, order, modes);
  }

  lemma {:induction false} ModesApplied(s: State, fd: int, eff: Effect, name: string, order: seq<int>,
                                        modes: ChannelModes)
    requires fd in s.clients && Exists(s, name) && Enumerates(order, Chan(s, name).members)
    requires eff.ChangeModes? && eff.name == name && eff.modes == modes
    ensures Apply(s, fd, eff) == WithModes(s, name, modes) && Enumerates(order, Audience(s, fd, eff))
  {
  }

  lemma {:induction false} ModeSettled(s: State, fd: int, name: string, letter: char, arg: Option<string>, msg: Message,
                                       modes: ChannelModes)
    requires fd in s.clients && s.clients[fd].registered && ValidChannel(name)
    requires OnChannel(s, fd, name) && OperatorOf(s, fd, name)
    requires letter in "itkl" && (arg.Some? ==> letter in "kl")
    requires msg.params == [name, ['+', letter]] + if arg.Some? then [arg.value] else []
    requires Change(Chan(s, name).modes, true, letter, arg) == Some(modes)
    ensures var eff := DecideMode(s, fd, s.clients[fd], msg);
            eff.ChangeModes? && eff.name == name && eff.modes == modes
  {
    assert msg.Param(0) == name && msg.Param(1) == ['+', letter];
    assert arg.Some? ==> msg.Param(2) == arg.value;
  }

  /** One command per letter, in the order of the query. */
  function ModeLog(fd: int, name: string, letters: string, args: seq<string>, order: seq<int>): seq<Event>
    decreases |letters|
  {
    if letters == "" then []
    else
      var takes := letters[0] == 'k' || letters[0] == 'l';
      var arg := if takes && args != [] then Some(args[0]) else None;
      [Command(fd, Body(ModeCommand(name, letters[0], arg)), order)] +
      ModeLog(fd, name, letters[1..], if arg.Some? then args[1..] else args, order)
  }

  lemma {:induction false} ReplayRuns(s: State, fd: int, name: string, letters: string, args: seq<string>,
                                      order: seq<int>, modes: ChannelModes)
    requires Sound(s) && OperatorOf(s, fd, name) && ValidChannel(name) && Enumerates(order, Chan(s, name).members)
    requires Sendable(letters, args)
    requires Replay(Chan(s, name).modes, letters, args) == Some(modes)
    ensures var log := ModeLog(fd, name, letters, args, order);
            ValidLog(s, log) && Exec(s, log) == WithModes(s, name, modes)
    decreases |letters|
  {
    if letters == "" {
      assert s.channels[Fold(name) := Chan(s, name)] == s.channels;
    } else {
      var takes := letters[0] == 'k' || letters[0] == 'l';
      var arg := if takes && args != [] then Some(args[0]) else None;
      var next := Change(Chan(s, name).modes, true, letters[0], arg).value;
      var more := if arg.Some? then args[1..] else args;
      ReplaySteps(Chan(s, name).modes, letters, args, modes);
      ReplayOne(s, fd, name, letters[0], arg, order, next);
      ReplayRuns(WithModes(s, name, next), fd, name, letters[1..], more, order, modes);
      var e := Command(fd, Body(ModeCommand(name, letters[0], arg)), order);
      var rest := ModeLog(fd, name, letters[1..], more, order);
      OneThenRest(s, e, rest);
      ModesTwice(s, name, next, modes);
      assert ModeLog(fd, name, letters, args, order) == [e] + rest;
    }
  }

  /** Letters and arguments that can be sent. */
  predicate Sendable(letters: string, args: seq<string>) {
    (forall c <- letters :: c in "itkl") && forall a <- args :: NoNewline(a)
  }

  lemma {:induction false} ReplaySteps(m: ChannelModes, letters: string, args: seq<string>, modes: ChannelModes)
    requires letters != "" && Sendable(letters, args) && Replay(m, letters, args) == Some(modes)
    ensures var takes := letters[0] == 'k' || letters[0] == 'l';
            var arg := if takes && args != [] then Some(args[0]) else None;
            var more, next := if arg.Some? then args[1..] else args, Change(m, true, letters[0], arg);
            letters[0] in "itkl" && (arg.Some? ==> NoNewline(arg.value)) && Sendable(letters[1..], more) &&
            next.Some? && Replay(next.value, letters[1..], more) == Some(modes)
  {
    assert letters[0] in letters && (args != [] ==> args[0] in args);
  }

  lemma {:induction false} ReplayOne(s: State, fd: int, name: string, letter: char, arg: Option<string>,
                                     order: seq<int>, next: ChannelModes)
    requires Sound(s) && OperatorOf(s, fd, name) && ValidChannel(name) && Enumerates(order, Chan(s, name).members)
    requires letter in "itkl" && (arg.Some? ==> NoNewline(arg.value) && letter in "kl")
    requires Change(Chan(s, name).modes, true, letter, arg) == Some(next)
    ensures var e, s' := Command(fd, Body(ModeCommand(name, letter, arg)), order), WithModes(s, name, next);
            Enabled(s, e) && Next(s, e) == s' && Sound(s') && OperatorOf(s', fd, name) &&
            Enumerates(order, Chan(s', name).members) && Chan(s', name).modes == next
  {
    ModeCommandStep(s, fd, name, letter, arg, order, next);
    NextSound(s, Command(fd, Body(ModeCommand(name, letter, arg)), order));
  }

  lemma {:induction false} ModesTwice(s: State, name: string, a: ChannelModes, b: ChannelModes)
    requires Exists(s, name)
    ensures WithModes(WithModes(s, name, a), name, b) == WithModes(s, name, b)
  {
    var k, ch := Fold(name), Chan(s, name);
    assert s.channels[k := ch.(modes := a)][k := ch.(modes := b)] == s.channels[k := ch.(modes := b)];
  }

  lemma {:induction false} OneThenRest(s: State, e: Event, rest: seq<Event>)
    requires Enabled(s, e)
    ensures Exec(s, [e] + rest) == Exec(Next(s, e), rest)
    ensures ValidLog(s, [e] + rest) <==> ValidLog(Next(s, e), rest)
  {
    RunSplit(s, [e], rest);
    assert [e][..0] == [] && Exec(s, []) == s;
  }

  /** The query is faithful: on a channel without modes, such as a new one, the operator's commands
      `MODE name +x [arg]`, one for each queried letter with its argument, lead to exactly the
      modes that were queried and change nothing else. */
  lemma {:induction false} CommandsRebuild(s: State, fd: int, name: string, m: ChannelModes, order: seq<int>)
    requires Sound(s) && OperatorOf(s, fd, name) && ValidChannel(name) && Enumerates(order, Chan(s, name).members)
    requires Chan(s, name).modes == NO_MODES && m.Valid() && NoNewline(m.key)
    ensures var log := ModeLog(fd, name, Letters(m), Arguments(m), order);
            ValidLog(s, log) && Exec(s, log) == WithModes(s, name, m)
  {
    ReplayRebuilds(m);
    forall a | a in Arguments(m) ensures NoNewline(a) {
      if m.limit >= 0 { DigitsClean(m.limit); }
    }
    assert Sendable(Letters(m), Arguments(m));
    ReplayRuns(s, fd, name, Letters(m), Arguments(m), order, m);
  }

  // ----- Two commands that do not do what they seem to ---------------------------------------

  /** A channel with an operator `op` on 4 and a member `^x` on 5. */
  const EXAMPLE := State("p",
    map[4 := Client("op", "u", "r", "h", true, true), 5 := Client("^x", "u", "r", "h", true, true)],
    map["#c" := Channel("#c", "", {4, 5}, {4}, {}, NO_MODES)])

  /** The lines with which a client registers. */
  function Registration(fd: int, nick: string): seq<Event> {
    [Connect(fd, "h"), Command(fd, "PASS p", []), Command(fd, "NICK " + nick, []), Command(fd, "USER u 0 * r", [])]
  }

  /** How the example comes about. */
  const EXAMPLE_LOG :=
    Registration(4, "op") + [Command(4, "JOIN #c", [4])] + Registration(5, "^x") + [Command(5, "JOIN #c", [4, 5])]

  lemma {:induction false} ExampleNames()
    ensures ValidNick("op") && ValidNick("^x") && ValidChannel("#c")
    ensures Fold("op") == "op" && Fold("op") != Fold("^x") && Fold("^x") == "^x" && Fold("#c") == "#c"
    ensures Fold("~x") == "^x"
  {
    assert Fold("op")[0] == 'o' && Fold("^x")[0] == '^' && Fold("#c")[0] == '#' && Fold("~x")[0] == '^';
    assert Fold("op")[1] == 'p' && Fold("^x")[1] == 'x' && Fold("#c")[1] == 'c' && Fold("~x")[1] == 'x';
  }

  /** A line without trailing parameter that consists of a command and blank-free parameters. */
  lemma {:induction false} PlainCommand(command: string, params: seq<string>, line: string)
    requires command != "" && command[0] != ':' && Upper(command) == command && SpaceFree(command) && NoNewline(command)
    requires forall a <- params :: IsMiddle(a) && NoNewline(a)
    requires line == command + Spaced(params)
    ensures NoNewline(line) && Parse(line) == Message("", command, params)
  {
    var l := Line("", command, params, None);
    assert Body(l) == line;
    assert AllParams(l) == params;
    CommandRead(l);
  }

  lemma {:induction false} SpacedOut(a: string, rest: seq<string>)
    ensures Spaced([a] + rest) == " " + a + Spaced(rest)
  {
    assert ([a] + rest)[1..] == rest;
  }

  /** The line spells that command with those parameters. */
  ghost predicate Reads(line: string, verb: Verb, params: seq<string>) {
    NoNewline(line) && Parse(line) == Message("", Name(verb), params)
  }

  /** The commands of the example. */
  predicate InExample(verb: Verb) { verb.PASS? || verb.NICK? || verb.USER? || verb.JOIN? || verb.KICK? }

  lemma {:induction false} VerbName(verb: Verb)
    requires InExample(verb)
    ensures var name := Name(verb);
            name != "" && name[0] != ':' && Upper(name) == name && SpaceFree(name) && NoNewline(name)
  {
    assert |Upper(Name(verb))| == |Name(verb)|;
    assert Upper(Name(verb)) == Name(verb);
  }

  lemma {:induction false} VerbLine(verb: Verb, params: seq<string>, line: string)
    requires InExample(verb) && forall a <- params :: IsMiddle(a) && NoNewline(a)
    requires line == Name(verb) + Spaced(params)
    ensures Reads(line, verb, params)
  {
    VerbName(verb);
    PlainCommand(Name(verb), params, line);
  }

  lemma {:induction false} OneParameter(verb: Verb, a: string)
    requires InExample(verb) && IsMiddle(a) && NoNewline(a)
    ensures Reads(Name(verb) + " " + a, verb, [a])
  {
    SpacedOut(a, []);
    assert [a] + [] == [a];
    assert Name(verb) + " " + a == Name(verb) + (" " + a + Spaced([]));
    VerbLine(verb, [a], Name(verb) + " " + a);
  }

  lemma {:induction false} UserParams()
    ensures Spaced(["u", "0", "*", "r"]) == " u 0 * r"
    ensures forall a <- ["u", "0", "*", "r"] :: IsMiddle(a) && NoNewline(a)
  {
    SpacedOut("r", []);
    SpacedOut("*", ["r"]);
    SpacedOut("0", ["*", "r"]);
    SpacedOut("u", ["0", "*", "r"]);
  }

  /** The next event of a run. */
  lemma {:induction false} Extended(s: State, log: seq<Event>, e: Event)
    requires ValidLog(s, log) && Enabled(Exec(s, log), e)
    ensures ValidLog(s, log + [e]) && Exec(s, log + [e]) == Next(Exec(s, log), e)
  {
    LogAppend(s, log, e, e.fd);
  }

  /** A line whose parts are known is decided by its verb. */
  lemma {:induction false} Understood(s: State, fd: int, line: string, verb: Verb, params: seq<string>, eff: Effect,
                                      order: seq<int>)
    requires fd in s.clients && !verb.UNKNOWN? && Reads(line, verb, params)
    requires DecideVerb(s, fd, Message("", Name(verb), params), verb) == eff
    ensures var e := Command(fd, line, order);
            Next(s, e) == Apply(s, fd, eff) && (Enabled(s, e) <==> Enumerates(order, Audience(s, fd, eff)))
  {
    Spelled(Name(verb), verb);
  }

  lemma {:induction false} PassLine()
    ensures Reads("PASS p", PASS, ["p"])
  {
    OneParameter(PASS, "p");
    assert "PASS" + " " + "p" == "PASS p";
  }

  lemma {:induction false} PassAccepted(s: State, fd: int, line: string)
    requires fd in s.clients && !s.clients[fd].registered && Reads(line, PASS, [s.password])
    ensures var e := Command(fd, line, []);
            Enabled(s, e) && Next(s, e) == WithClient(s, fd, s.clients[fd].(passOk := true))
  {
    Understood(s, fd, line, PASS, [s.password], AcceptPass, []);
  }

  lemma {:induction false} NickLine(nick: string)
    requires ValidNick(nick)
    ensures Reads("NICK " + nick, NICK, [nick])
  {
    NickMiddle(nick);
    OneParameter(NICK, nick);
    assert "NICK" + " " + nick == "NICK " + nick;
  }

  lemma {:induction false} NickAccepted(s: State, fd: int, line: string, nick: string)
    requires fd in s.clients && s.clients[fd].passOk && s.clients[fd].username == ""
    requires ValidNick(nick) && Holders(s, nick) == {} && Reads(line, NICK, [nick])
    ensures var e := Command(fd, line, []);
            Enabled(s, e) && Next(s, e) == WithClient(s, fd, s.clients[fd].(nick := nick))
  {
    Understood(s, fd, line, NICK, [nick], TakeNick(nick), []);
  }

  lemma {:induction false} UserLine()
    ensures Reads("USER u 0 * r", USER, ["u", "0", "*", "r"])
  {
    UserParams();
    assert "USER" + " u 0 * r" == "USER u 0 * r";
    VerbLine(USER, ["u", "0", "*", "r"], "USER u 0 * r");
  }

  lemma {:induction false} UserAccepted(s: State, fd: int, line: string, params: seq<string>)
    requires fd in s.clients && s.clients[fd].passOk && !s.clients[fd].registered && s.clients[fd].nick != ""
    requires Reads(line, USER, params) && |params| == 4 && params[0] != "" && params[3] != ""
    ensures var e := Command(fd, line, []);
            Enabled(s, e) &&
            Next(s, e) ==
            WithClient(s, fd, s.clients[fd].(username := params[0], realname := params[3], registered := true))
  {
    Understood(s, fd, line, USER, params, TakeUser(params[0], params[3]), []);
    UserApplied(s, fd, params[0], params[3]);
  }

  lemma {:induction false} UserApplied(s: State, fd: int, user: string, realname: string)
    requires fd in s.clients && s.clients[fd].passOk && !s.clients[fd].registered && s.clients[fd].nick != ""
    requires user != "" && realname != ""
    ensures Apply(s, fd, TakeUser(user, realname)) ==
            WithClient(s, fd, s.clients[fd].(username := user, realname := realname, registered := true))
    ensures Enumerates([], Audience(s, fd, TakeUser(user, realname)))
  {
  }

  lemma {:induction false} JoinLine()
    requires ValidChannel("#c")
    ensures Reads("JOIN #c", JOIN, ["#c"])
  {
    ChannelMiddle("#c");
    OneParameter(JOIN, "#c");
    assert "JOIN" + " " + "#c" == "JOIN #c";
  }

  lemma {:induction false} JoinAccepted(s: State, fd: int, line: string, name: string, order: seq<int>)
    requires fd in s.clients && s.clients[fd].registered && ValidChannel(name) && Fold(name) == name
    requires name in s.channels ==> s.channels[name].modes == NO_MODES
    requires Enumerates(order, (if name in s.channels then s.channels[name].members else {}) + {fd})
    requires Reads(line, JOIN, [name])
    ensures Enabled(s, Command(fd, line, order)) && Next(s, Command(fd, line, order)) == AddMember(s, fd, name)
  {
    var msg := Message("", Name(JOIN), [name]);
    assert msg.Param(0) == name;
    Understood(s, fd, line, JOIN, [name], Enter(name), order);
  }

  /** A client on `fd` as far as it has come. */
  function Newcomer(fd: int, nick: string, done: nat): Client {
    Client(if done >= 2 then nick else "", if done >= 3 then "u" else "", if done >= 3 then "r" else "", "h", done >= 1,
           done >= 3)
  }

  lemma {:induction false} PutTwice(s: State, fd: int, a: Client, b: Client)
    ensures WithClient(WithClient(s, fd, a), fd, b) == WithClient(s, fd, b)
  {
    assert s.clients[fd := a][fd := b] == s.clients[fd := b];
  }

  /** The state when `done` of the four lines are done. */
  function Registering(s: State, fd: int, nick: string, done: nat): State {
    if done == 0 then s else WithClient(s, fd, Newcomer(fd, nick, done - 1))
  }

  lemma {:induction false} RegistrationStep(s: State, fd: int, nick: string, done: nat)
    requires s.password == "p" && fd >= 0 && fd !in s.clients && ValidNick(nick) && Holders(s, nick) == {} && done <= 3
    ensures var before, e := Registering(s, fd, nick, done), Registration(fd, nick)[done];
            Enabled(before, e) && Next(before, e) == Registering(s, fd, nick, done + 1)
  {
    if done > 0 {
      var before := Registering(s, fd, nick, done);
      PutTwice(s, fd, before.clients[fd], Newcomer(fd, nick, done));
      if done == 1 {
        PassLine();
        PassAccepted(before, fd, "PASS p");
      } else if done == 2 {
        assert Holders(before, nick) == Holders(s, nick);
        NickLine(nick);
        NickAccepted(before, fd, "NICK " + nick, nick);
      } else {
        UserLine();
        UserAccepted(before, fd, "USER u 0 * r", ["u", "0", "*", "r"]);
      }
    }
  }

  /** A run through the given states, as far as the first `n` events. */
  lemma {:induction false} RunThrough(s: State, log: seq<Event>, es: seq<Event>, states: seq<State>, n: nat)
    requires ValidLog(s, log) && n <= |es| && Consecutive(es, states) && states[0] == Exec(s, log)
    ensures ValidLog(s, log + es[..n]) && Exec(s, log + es[..n]) == states[n]
  {
    if n == 0 {
      assert log + es[..0] == log;
    } else {
      RunThrough(s, log, es, states, n - 1);
      Extended(s, log + es[..n - 1], es[n - 1]);
      OneMore(es, n - 1);
      Regrouped(log, es[..n - 1], [es[n - 1]]);
    }
  }

  function RegistrationStates(s: State, fd: int, nick: string): seq<State> {
    seq(5, i requires i >= 0 => Registering(s, fd, nick, i))
  }

  ghost predicate Consecutive(es: seq<Event>, states: seq<State>) {
    |states| == |es| + 1 &&
    forall i :: 0 <= i < |es| ==> Enabled(states[i], es[i]) && Next(states[i], es[i]) == states[i + 1]
  }

  lemma {:induction false} RegistrationSteps(s: State, fd: int, nick: string)
    requires s.password == "p" && fd >= 0 && fd !in s.clients && ValidNick(nick) && Holders(s, nick) == {}
    ensures Consecutive(Registration(fd, nick), RegistrationStates(s, fd, nick))
  {
    var states, es := RegistrationStates(s, fd, nick), Registration(fd, nick);
    forall i | 0 <= i < |es| ensures Enabled(states[i], es[i]) && Next(states[i], es[i]) == states[i + 1] {
      RegistrationStep(s, fd, nick, i);
      assert states[i] == Registering(s, fd, nick, i) && states[i + 1] == Registering(s, fd, nick, i + 1);
    }
  }

  lemma {:induction false} RunAll(s: State, log: seq<Event>, es: seq<Event>, states: seq<State>)
    requires ValidLog(s, log) && Consecutive(es, states) && states[0] == Exec(s, log)
    ensures ValidLog(s, log + es) && Exec(s, log + es) == states[|es|]
  {
    RunThrough(s, log, es, states, |es|);
    assert es[..|es|] == es;
  }

  /** A newcomer that registers under a free nickname. */
  lemma {:induction false} RegistrationRuns(s: State, log: seq<Event>, fd: int, nick: string)
    requires ValidLog(s, log) && Exec(s, log).password == "p" && fd >= 0 && fd !in Exec(s, log).clients
    requires ValidNick(nick) && Holders(Exec(s, log), nick) == {}
    ensures ValidLog(s, log + Registration(fd, nick))
    ensures Exec(s, log + Registration(fd, nick)) == WithClient(Exec(s, log), fd, Newcomer(fd, nick, 3))
  {
    var start := Exec(s, log);
    RegistrationSteps(start, fd, nick);
    RunAll(s, log, Registration(fd, nick), RegistrationStates(start, fd, nick));
  }

  const FOUNDED := State("p", map[4 := Client("op", "u", "r", "h", true, true)],
    map["#c" := Channel("#c", "", {4}, {4}, {}, NO_MODES)])

  lemma {:induction false} FoundedReached(log: seq<Event>)
    requires log == Registration(4, "op") + [Command(4, "JOIN #c", [4])]
    ensures ValidLog(Init("p"), log) && Exec(Init("p"), log) == FOUNDED
  {
    ExampleNames();
    var start, first := Init("p"), Registration(4, "op");
    RegistrationRuns(start, [], 4, "op");
    assert [] + first == first;
    FirstJoins(Exec(start, first));
    Extended(start, first, Command(4, "JOIN #c", [4]));
  }

  lemma {:induction false} FirstJoins(s: State)
    requires s == WithClient(Init("p"), 4, Newcomer(4, "op", 3)) && Fold("#c") == "#c" && ValidChannel("#c")
    ensures Enabled(s, Command(4, "JOIN #c", [4])) && Next(s, Command(4, "JOIN #c", [4])) == FOUNDED
  {
    JoinLine();
    JoinAccepted(s, 4, "JOIN #c", "#c", [4]);
    assert s.clients == FOUNDED.clients;
    assert AddMember(s, 4, "#c").channels == FOUNDED.channels;
  }

  lemma {:induction false} SecondJoins(s: State)
    requires s == WithClient(FOUNDED, 5, Newcomer(5, "^x", 3)) && Fold("#c") == "#c" && ValidChannel("#c")
    ensures Enabled(s, Command(5, "JOIN #c", [4, 5])) && Next(s, Command(5, "JOIN #c", [4, 5])) == EXAMPLE
  {
    JoinLine();
    SecondSees(s);
    JoinAccepted(s, 5, "JOIN #c", "#c", [4, 5]);
    SecondAdded(s);
  }

  lemma {:induction false} SecondSees(s: State)
    requires s == WithClient(FOUNDED, 5, Newcomer(5, "^x", 3))
    ensures 5 in s.clients && s.clients[5].registered && "#c" in s.channels && s.channels["#c"].modes == NO_MODES
    ensures Enumerates([4, 5], s.channels["#c"].members + {5})
  {
    assert s.channels["#c"].members == {4};
  }

  lemma {:induction false} SecondAdded(s: State)
    requires s == WithClient(FOUNDED, 5, Newcomer(5, "^x", 3)) && Fold("#c") == "#c"
    ensures AddMember(s, 5, "#c") == EXAMPLE
  {
    var one, two := FOUNDED.channels["#c"], EXAMPLE.channels["#c"];
    assert two == one.(members := one.members + {5}, invited := one.invited - {5});
    assert s.channels["#c" := two] == EXAMPLE.channels;
    assert s.clients == EXAMPLE.clients;
  }

  /** The example is a state of a server with the password "p". */
  lemma {:induction false} ExampleReached()
    ensures ValidLog(Init("p"), EXAMPLE_LOG) && Exec(Init("p"), EXAMPLE_LOG) == EXAMPLE
  {
    ExampleNames();
    var start, log := Init("p"), Registration(4, "op") + [Command(4, "JOIN #c", [4])];
    FoundedReached(log);
    assert Holders(FOUNDED, "^x") == {};
    RegistrationRuns(start, log, 5, "^x");
    SecondJoins(Exec(start, log + Registration(5, "^x")));
    Extended(start, log + Registration(5, "^x"), Command(5, "JOIN #c", [4, 5]));
  }

  lemma {:induction false} ExampleSound()
    ensures Sound(EXAMPLE)
  {
    ExampleReached();
    InitSound();
    RunSound(Init("p"), EXAMPLE_LOG);
  }

  lemma {:induction false} InitSound()
    ensures Sound(Init("p"))
  {
  }

  /** MODE +k accepts a key that the reply to a query cannot carry: after `MODE #c +k :a b` the
      query does not read back as it was meant. */
  lemma {:induction false} BlankKeyIsLost()
    ensures var e := Command(4, "MODE #c +k :a b", [4, 5]);
            Enabled(EXAMPLE, e) && Exists(Next(EXAMPLE, e), "#c") &&
            var modes := Chan(Next(EXAMPLE, e), "#c").modes;
            modes.hasKey && modes.key == "a b" &&
            Parse(Render(ModeIsLine("op", "#c", modes))).params != ["op", "#c", "+" + Letters(modes)] + Arguments(modes)
  {
    ExampleSound();
    ExampleNames();
    var modes := ChannelModes(false, false, true, "a b", -1);
    BlankKeyLine();
    assert Enumerates([4, 5], Chan(EXAMPLE, "#c").members);
    ModeCommandStep(EXAMPLE, 4, "#c", 'k', Some("a b"), [4, 5], modes);
    BlankKeyReply(modes);
  }

  lemma {:induction false} BlankKeyLine()
    ensures Body(ModeCommand("#c", 'k', Some("a b"))) == "MODE #c +k :a b" && NoNewline("a b")
  {
    var l := ModeCommand("#c", 'k', Some("a b"));
    assert l.middles[1..] == ["+k"] && l.middles[1..][1..] == [];
    assert Spaced(["+k"]) == " +k";
    assert Spaced(l.middles) == " #c +k";
  }

  lemma {:induction false} BlankKeyReply(modes: ChannelModes)
    requires modes == ChannelModes(false, false, true, "a b", -1)
    ensures Parse(Render(ModeIsLine("op", "#c", modes))).params != ["op", "#c", "+" + Letters(modes)] + Arguments(modes)
  {
    assert ' ' in "a b" by { assert "a b"[1] == ' '; }
    QueryFaithfulIff("op", "#c", modes);
  }

  /** The operator names the holder of `^x` as `~x`. The two spellings are the same nickname under
      folding, yet the member stays and the operator is told that there is no such nickname,
      because `~x` is not valid. */
  lemma {:induction false} TildeIsNotKicked()
    ensures var e := Command(4, "KICK #c ~x", []);
            Enabled(EXAMPLE, e) && OperatorOf(EXAMPLE, 4, "#c") && OnChannel(EXAMPLE, 5, "#c") &&
            Holders(EXAMPLE, "~x") == {5} && OnChannel(Next(EXAMPLE, e), 5, "#c") &&
            Outputs(EXAMPLE, e) == [Out(4, Numeric("401", "op", "~x", "No such nick/channel"))]
  {
    ExampleNames();
    TildeLine();
    TildeReply(Parse("KICK #c ~x"));
  }

  lemma {:induction false} TildeLine()
    ensures Reads("KICK #c ~x", KICK, ["#c", "~x"])
  {
    TildeParams();
    assert "KICK" + " #c ~x" == "KICK #c ~x";
    VerbLine(KICK, ["#c", "~x"], "KICK #c ~x");
  }

  lemma {:induction false} TildeParams()
    ensures Spaced(["#c", "~x"]) == " #c ~x"
    ensures forall a <- ["#c", "~x"] :: IsMiddle(a) && NoNewline(a)
  {
    SpacedOut("~x", []);
    SpacedOut("#c", ["~x"]);
  }

  lemma {:induction false} TildeReply(msg: Message)
    requires msg == Message("", Name(KICK), ["#c", "~x"])
    ensures Decide(EXAMPLE, 4, msg) == Reply(Numeric("401", "op", "~x", "No such nick/channel"))
    ensures Holders(EXAMPLE, "~x") == {5} && Fold("#c") == "#c"
  {
    ExampleNames();
    assert "~x"[0] in "~x" && !ValidNick("~x");
    InvalidIsNobody(EXAMPLE, 4, msg, "#c", "~x");
    NoSuchNick(EXAMPLE.clients[4], "op", "~x");
  }

  /** An operator who kicks by an invalid nickname is told that nobody has it. */
  lemma {:induction false} InvalidIsNobody(s: State, fd: int, msg: Message, name: string, nick: string)
    requires fd in s.clients && s.clients[fd].registered && ValidChannel(name) && Exists(s, name)
    requires OnChannel(s, fd, name) && OperatorOf(s, fd, name) && !ValidNick(nick)
    requires msg.command == Name(KICK) && msg.params == [name, nick]
    ensures Decide(s, fd, msg) == Reply(Err(s.clients[fd], ERR_NOSUCHNICK, nick))
  {
    Spelled(msg.command, KICK);
    assert msg.Param(0) == name && msg.Param(1) == nick;
  }

  lemma {:induction false} NoSuchNick(c: Client, target: string, nick: string)
    requires c.nick == target != ""
    ensures Err(c, ERR_NOSUCHNICK, nick) == Numeric("401", target, nick, "No such nick/channel")
  {
  }
}
