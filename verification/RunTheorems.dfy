/** Claims about whole runs: registration, operator authority, admission, relayed text. */
module RunTheorems {
  import opened IrcText
  import opened Wire
  import opened Framing
  import opened Modes
  import opened Model
  import opened Soundness
  import opened Runs

  // ----- Registration -----------------------------------------------------------------------

  function WelcomeCount(lines: seq<Line>): nat {
    if lines == [] then 0
    else WelcomeCount(lines[..|lines| - 1]) + if lines[|lines| - 1].command == "001" then 1 else 0
  }

  lemma {:induction false} WelcomeCountConcat(a: seq<Line>, b: seq<Line>)
    ensures WelcomeCount(a + b) == WelcomeCount(a) + WelcomeCount(b)
  {
    if b == [] {
      assert a + b == a;
    } else {
      assert (a + b)[..|a + b| - 1] == a + b[..|b| - 1];
      WelcomeCountConcat(a, b[..|b| - 1]);
    }
  }

  lemma {:induction false} NoWelcome(lines: seq<Line>)
    requires forall l <- lines :: l.command != "001"
    ensures WelcomeCount(lines) == 0
  {
    if lines != [] { NoWelcome(lines[..|lines| - 1]); }
  }

  function RegisteredCount(s: State, fd: int): nat {
    if fd in s.clients && s.clients[fd].registered then 1 else 0
  }

  lemma OnlyRegisteringEffects(s: State, fd: int, eff: Effect, f: int)
    requires fd in s.clients && !Registers(eff)
    ensures RegisteredCount(Apply(s, fd, eff), f) == RegisteredCount(s, f)
  {
  }

  lemma RegisteringEffect(s: State, fd: int, eff: Effect, order: seq<int>, f: int)
    requires Sound(s) && fd in s.clients && f in s.clients && Registers(eff)
    ensures WelcomeCount(ToFd(Emit(s, fd, eff, order), f)) ==
            RegisteredCount(Apply(s, fd, eff), f) - RegisteredCount(s, f)
  {
    var c := s.clients[fd];
    match eff
    case TakeNick(nick) => CompletingEffect(s, fd, MaybeRegister(c.(nick := nick)), f);
    case TakeUser(u, r) => CompletingEffect(s, fd, MaybeRegister(c.(username := u, realname := r)), f);
  }

  lemma CompletingEffect(s: State, fd: int, d: Client, f: int)
    requires fd in s.clients && f in s.clients && (s.clients[fd].registered ==> d.registered)
    ensures WelcomeCount(ToFd(WelcomeIfNew(fd, s.clients[fd], d), f)) ==
            RegisteredCount(WithClient(s, fd, d), f) - RegisteredCount(s, f)
  {
    WelcomeOut(WelcomeIfNew(fd, s.clients[fd], d), fd, f);
  }

  /** One event welcomes `fd` exactly when it turns `fd` into a registered client. */
  lemma WelcomeStep(s: State, e: Event, fd: int)
    requires Sound(s) && Enabled(s, e) && fd in s.clients && !(e.fd == fd && !e.Command?)
    ensures WelcomeCount(ToFd(Outputs(s, e), fd)) == RegisteredCount(Next(s, e), fd) - RegisteredCount(s, fd)
  {
    if Welcomes(s, e) {
      RegisteringEffect(s, e.fd, Decide(s, e.fd, Parse(e.line)), e.order, fd);
    } else {
      if e.Command? { OnlyRegisteringEffects(s, e.fd, Decide(s, e.fd, Parse(e.line)), fd); }
      NothingToWelcome(s, e, fd);
    }
  }

  lemma NothingToWelcome(s: State, e: Event, fd: int)
    requires Sound(s) && Enabled(s, e) && !Welcomes(s, e)
    ensures WelcomeCount(ToFd(Outputs(s, e), fd)) == 0
  {
    OutputsGood(s, e);
    var outs := Outputs(s, e);
    forall l | l in ToFd(outs, fd) ensures l.command != "001" {
      ToFdMember(outs, fd, l);
    }
    NoWelcome(ToFd(outs, fd));
  }

  lemma WelcomeOut(outs: seq<Out>, to: int, fd: int)
    requires outs == [] || (|outs| == 1 && outs[0].fd == to && outs[0].line.command == "001")
    ensures WelcomeCount(ToFd(outs, fd)) == if outs != [] && to == fd then 1 else 0
  {
    if outs != [] { assert outs[..0] == []; }
  }

  /** Over any run, the number of 001 replies a live client received since it was accepted is
      1 if it is registered and 0 if it is not. */
  lemma {:induction false} WelcomedIffRegistered(s: State, log: seq<Event>, fd: int)
    requires Sound(s) && s.clients == map[] && ValidLog(s, log) && fd in Exec(s, log).clients
    ensures WelcomeCount(Addressed(s, log, fd)) == RegisteredCount(Exec(s, log), fd)
  {
    if log != [] {
      var front, e := log[..|log| - 1], log[|log| - 1];
      var before := Exec(s, front);
      RunSound(s, front);
      if e.fd != fd || e.Command? {
        KeepsClient(before, e, fd);
        WelcomedIffRegistered(s, front, fd);
        WelcomeStep(before, e, fd);
        WelcomeCountConcat(Addressed(s, front, fd), ToFd(Outputs(before, e), fd));
      }
    }
  }

  lemma KeepsClient(s: State, e: Event, fd: int)
    requires Enabled(s, e) && !(e.fd == fd && !e.Command?)
    ensures fd in Next(s, e).clients <==> fd in s.clients
  {
    if e.Command? { ClientsStay(s, e.fd, Decide(s, e.fd, Parse(e.line))); }
  }

  /** What one event may do to a client that stays connected. */
  lemma RegistrationStep(s: State, e: Event, fd: int)
    requires Sound(s) && Enabled(s, e) && fd in s.clients && !(e.fd == fd && !e.Command?)
    ensures fd in Next(s, e).clients
    ensures var c, d := s.clients[fd], Next(s, e).clients[fd];
            (c.passOk ==> d.passOk) && (c.registered ==> d.registered) && d.host == c.host &&
            (c.registered ==> d.username == c.username && d.realname == c.realname) &&
            (!c.passOk && d.passOk ==> e.Command? && e.fd == fd && GivesPassword(e.line, s.password))
  {
    if e.Command? {
      var msg := Parse(e.line);
      ParsedFromLine(e.line);
      DecideAllowed(s, e.fd, msg);
      Spelled(msg.command, PASS);
      RegistrationEffect(s, e.fd, msg, VerbOf(msg.command), Decide(s, e.fd, msg), fd);
    }
  }

  /** A PASS with the password. */
  predicate GivesPassword(line: string, password: string) {
    var msg := Parse(line); msg.command == "PASS" && msg.HasParam(0) && msg.Param(0) == password
  }

  lemma RegistrationEffect(s: State, fd: int, msg: Message, verb: Verb, eff: Effect, f: int)
    requires fd in s.clients && f in s.clients && Allowed(s, fd, msg, eff) && Fits(verb, eff)
    ensures f in Apply(s, fd, eff).clients
    ensures var c, d := s.clients[f], Apply(s, fd, eff).clients[f];
            (c.passOk ==> d.passOk) && (c.registered ==> d.registered) && d.host == c.host &&
            (c.registered ==> d.username == c.username && d.realname == c.realname) &&
            (!c.passOk && d.passOk ==>
              fd == f && verb.PASS? && msg.HasParam(0) && msg.Param(0) == s.password)
  {
    if !(f == fd && (eff.AcceptPass? || eff.TakeNick? || eff.TakeUser?)) { EffectOnClient(s, fd, eff, f); }
  }

  /** `fd` is neither accepted nor disconnected in `log`. */
  predicate StaysConnected(log: seq<Event>, fd: int) {
    forall e <- log :: e.fd == fd ==> e.Command?
  }

  /** While a client stays connected, an accepted password and a registration never revert, and
      a registered client's username, real name and host never change. */
  lemma {:induction false} RegistrationLasts(s: State, log: seq<Event>, fd: int)
    requires Sound(s) && ValidLog(s, log) && fd in s.clients && StaysConnected(log, fd)
    ensures fd in Exec(s, log).clients
    ensures var c, d := s.clients[fd], Exec(s, log).clients[fd];
            (c.passOk ==> d.passOk) && d.host == c.host &&
            (c.registered ==> d.registered && d.username == c.username && d.realname == c.realname)
  {
    if log != [] {
      var front, e := log[..|log| - 1], log[|log| - 1];
      assert e in log;
      RegistrationLasts(s, front, fd);
      RunSound(s, front);
      RegistrationStep(Exec(s, front), e, fd);
    }
  }

  /** Nobody is registered without the server password: if a client that was not yet past PASS
      is registered at the end of a run, it presented the password in the run. */
  lemma {:induction false} RegisteredGavePassword(s: State, log: seq<Event>, fd: int) returns (i: nat)
    requires Sound(s) && ValidLog(s, log) && fd in s.clients && StaysConnected(log, fd)
    requires !s.clients[fd].passOk && fd in Exec(s, log).clients && Exec(s, log).clients[fd].passOk
    ensures i < |log| && log[i].Command? && log[i].fd == fd && GivesPassword(log[i].line, s.password)
  {
    var front, e := log[..|log| - 1], log[|log| - 1];
    assert e in log;
    RegistrationLasts(s, front, fd);
    RunSound(s, front);
    if Exec(s, front).clients[fd].passOk {
      i := RegisteredGavePassword(s, front, fd);
    } else {
      RegistrationStep(Exec(s, front), e, fd);
      PasswordFixed(s, front);
      i := |log| - 1;
    }
  }

  lemma NextPassword(s: State, e: Event)
    ensures Next(s, e).password == s.password
  {
    if e.Command? && e.fd in s.clients {
      ClientsStay(s, e.fd, Decide(s, e.fd, Parse(e.line)));
    }
  }

  lemma {:induction false} PasswordFixed(s: State, log: seq<Event>)
    ensures Exec(s, log).password == s.password
  {
    if log != [] {
      PasswordFixed(s, log[..|log| - 1]);
      NextPassword(Exec(s, log[..|log| - 1]), log[|log| - 1]);
    }
  }

  // ----- Names ------------------------------------------------------------------------------

  /** In no reachable state do two clients hold nicknames that differ only in the case of letters. */
  lemma {:induction false} NicknamesApart(s: State, log: seq<Event>, f: int, g: int)
    requires Sound(s) && ValidLog(s, log) && f in Exec(s, log).clients && g in Exec(s, log).clients && f != g
    ensures var t := Exec(s, log); t.clients[f].nick == "" || !SameName(t.clients[f].nick, t.clients[g].nick)
  {
    RunSound(s, log);
    var t := Exec(s, log);
    NamesFold(t.clients[f].nick, t.clients[g].nick);
  }

  /** Nor are there two channels like that; and a name, in whatever case, finds the one there is. */
  lemma {:induction false} ChannelsApart(s: State, log: seq<Event>, name: string, j: string, k: string)
    requires Sound(s) && ValidLog(s, log) && j in Exec(s, log).channels && k in Exec(s, log).channels
    ensures var all := Exec(s, log).channels; j == k <==> SameName(all[j].name, all[k].name)
    ensures SameName(Exec(s, log).channels[k].name, name) <==>
            Exists(Exec(s, log), name) && Chan(Exec(s, log), name) == Exec(s, log).channels[k] && Fold(name) == k
  {
    RunSound(s, log);
    ChannelNames(Exec(s, log), name, j, k);
  }

  lemma {:induction false} ChannelNames(t: State, name: string, j: string, k: string)
    requires Sound(t) && j in t.channels && k in t.channels
    ensures j == k <==> SameName(t.channels[j].name, t.channels[k].name)
    ensures SameName(t.channels[k].name, name) <==> Exists(t, name) && Chan(t, name) == t.channels[k] && Fold(name) == k
  {
    assert GoodChannel(t.clients, j, t.channels[j]) && GoodChannel(t.clients, k, t.channels[k]);
    NamesFold(t.channels[j].name, t.channels[k].name);
    NamesFold(t.channels[k].name, name);
  }

  // ----- Operator authority -----------------------------------------------------------------

  ghost predicate OperatorActs(s: State, e: Event, k: string) {
    e.Command? && Parse(e.line).command == "MODE" && k in s.channels && e.fd in s.channels[k].ops
  }

  /** Within one lifetime of a channel its modes change and its operators grow only by a MODE
      command of a current operator. */
  lemma AuthorityStep(s: State, e: Event, k: string)
    requires Sound(s) && Enabled(s, e) && k in s.channels && k in Next(s, e).channels
    requires !OperatorActs(s, e, k)
    ensures Next(s, e).channels[k].modes == s.channels[k].modes
    ensures Next(s, e).channels[k].ops <= s.channels[k].ops
  {
    if e.Command? {
      var msg := Parse(e.line);
      ParsedFromLine(e.line);
      DecideAllowed(s, e.fd, msg);
      Spelled(msg.command, MODE);
      AuthorityEffect(s, e.fd, msg, VerbOf(msg.command), Decide(s, e.fd, msg), k);
    }
  }

  lemma AuthorityEffect(s: State, fd: int, msg: Message, verb: Verb, eff: Effect, k: string)
    requires Sound(s) && fd in s.clients && Allowed(s, fd, msg, eff) && Fits(verb, eff)
    requires k in s.channels && k in Apply(s, fd, eff).channels && (fd !in s.channels[k].ops || !verb.MODE?)
    ensures Apply(s, fd, eff).channels[k].modes == s.channels[k].modes
    ensures Apply(s, fd, eff).channels[k].ops <= s.channels[k].ops
  {
    if !(eff.ChangeModes? && Fold(eff.name) == k) { EffectOnModes(s, fd, eff, k); }
    if !(eff.ChangeOp? && Fold(eff.name) == k) { EffectOnOps(s, fd, eff, k); }
  }

  /** A channel comes into being only by the JOIN of a registered client, which becomes its only
      member and operator, with no mode set. */
  lemma FounderStep(s: State, e: Event, k: string)
    requires Sound(s) && Enabled(s, e) && k !in s.channels && k in Next(s, e).channels
    ensures e.Command? && Parse(e.line).command == "JOIN" && s.clients[e.fd].registered
    ensures var ch := Next(s, e).channels[k];
            ch.members == {e.fd} && ch.ops == {e.fd} && ch.invited == {} && ch.modes == NO_MODES && ch.topic == ""
  {
    if e.Command? {
      var msg := Parse(e.line);
      ParsedFromLine(e.line);
      DecideAllowed(s, e.fd, msg);
      Spelled(msg.command, JOIN);
      FounderEffect(s, e.fd, msg, VerbOf(msg.command), Decide(s, e.fd, msg), k);
    }
  }

  lemma FounderEffect(s: State, fd: int, msg: Message, verb: Verb, eff: Effect, k: string)
    requires fd in s.clients && Allowed(s, fd, msg, eff) && Fits(verb, eff)
    requires k !in s.channels && k in Apply(s, fd, eff).channels
    ensures verb.JOIN? && s.clients[fd].registered
    ensures var ch := Apply(s, fd, eff).channels[k];
            ch.members == {fd} && ch.ops == {fd} && ch.invited == {} && ch.modes == NO_MODES && ch.topic == ""
  {
  }

  /** The channel exists before, between and after all events: one lifetime. */
  ghost predicate Persists(s: State, log: seq<Event>, k: string) {
    k in Exec(s, log).channels && (log != [] ==> Persists(s, log[..|log| - 1], k))
  }

  ghost predicate NoOperatorActs(s: State, log: seq<Event>, k: string) {
    log != [] ==>
      !OperatorActs(Exec(s, log[..|log| - 1]), log[|log| - 1], k) && NoOperatorActs(s, log[..|log| - 1], k)
  }

  lemma {:induction false} PersistsStart(s: State, log: seq<Event>, k: string)
    requires Persists(s, log, k)
    ensures k in s.channels
  {
    if log != [] { PersistsStart(s, log[..|log| - 1], k); }
  }

  lemma {:induction false} AuthorityRun(s: State, log: seq<Event>, k: string)
    requires Sound(s) && ValidLog(s, log) && Persists(s, log, k) && NoOperatorActs(s, log, k)
    ensures k in s.channels
    ensures Exec(s, log).channels[k].modes == s.channels[k].modes
    ensures Exec(s, log).channels[k].ops <= s.channels[k].ops
  {
    PersistsStart(s, log, k);
    if log != [] {
      var front, e := log[..|log| - 1], log[|log| - 1];
      AuthorityRun(s, front, k);
      RunSound(s, front);
      AuthorityStep(Exec(s, front), e, k);
    }
  }

  /** Once no member is an operator, the modes are frozen and no operator appears for the rest
      of the channel's life, whatever anybody does. */
  lemma {:induction false} OperatorlessIsFrozen(s: State, log: seq<Event>, k: string)
    requires Sound(s) && ValidLog(s, log) && Persists(s, log, k)
    requires k in s.channels && s.channels[k].ops == {}
    ensures Exec(s, log).channels[k].ops == {} && Exec(s, log).channels[k].modes == s.channels[k].modes
    ensures NoOperatorActs(s, log, k)
  {
    if log != [] {
      OperatorlessIsFrozen(s, log[..|log| - 1], k);
      AuthorityRun(s, log, k);
    }
  }

  // ----- Admission --------------------------------------------------------------------------

  /** The JOIN of `f` that names the channel. */
  predicate Joins(e: Event, k: string, f: int) {
    e.Command? && e.fd == f && Parse(e.line).command == "JOIN" && Fold(Parse(e.line).Param(0)) == k
  }

  /** `f` came in with the event: by its own JOIN, registered, founding the channel or through all
      three gates. */
  ghost predicate ComesIn(s: State, e: Event, k: string, f: int) {
    Joins(e, k, f) && f in s.clients && s.clients[f].registered && f !in Members(s, k) &&
    (k in s.channels ==> Admitted(s.channels[k], f, Parse(e.line)))
  }

  /** A client becomes a member only by its own JOIN as a registered client, which either founds
      the channel or passes all three gates. */
  lemma AdmissionStep(s: State, e: Event, k: string, f: int)
    requires Sound(s) && Enabled(s, e) && f in Members(Next(s, e), k) && f !in Members(s, k)
    ensures ComesIn(s, e, k, f)
  {
    if e.Command? {
      var msg := Parse(e.line);
      ParsedFromLine(e.line);
      DecideAllowed(s, e.fd, msg);
      Spelled(msg.command, JOIN);
      AdmissionEffect(s, e.fd, msg, VerbOf(msg.command), Decide(s, e.fd, msg), k, f);
    }
  }

  lemma AdmissionEffect(s: State, fd: int, msg: Message, verb: Verb, eff: Effect, k: string, f: int)
    requires Sound(s) && fd in s.clients && Allowed(s, fd, msg, eff) && Fits(verb, eff)
    requires f in Members(Apply(s, fd, eff), k) && f !in Members(s, k)
    ensures fd == f && verb.JOIN? && Fold(msg.Param(0)) == k && s.clients[f].registered
    ensures k in s.channels ==> Admitted(s.channels[k], f, msg)
  {
    if !(eff.Enter? && Fold(eff.name) == k) {
      EffectOnMembers(s, fd, eff, k);
    }
  }

  /** `f` is a member in every state of the run after the first `i` events. */
  ghost predicate MemberSince(s: State, log: seq<Event>, k: string, f: int, i: nat) {
    forall j :: i < j <= |log| ==> f in Members(Exec(s, log[..j]), k)
  }

  lemma {:induction false} MemberStill(s: State, log: seq<Event>, k: string, f: int, i: nat)
    requires log != [] && MemberSince(s, log[..|log| - 1], k, f, i) && f in Members(Exec(s, log), k)
    ensures MemberSince(s, log, k, f, i)
  {
    var front := log[..|log| - 1];
    forall j | i < j <= |log| ensures f in Members(Exec(s, log[..j]), k) {
      assert log[..j] == if j == |log| then log else front[..j];
    }
  }

  /** Over any run, a member that was none at the start came in with some event and has been a
      member ever since. */
  lemma {:induction false} AdmissionRun(s: State, log: seq<Event>, k: string, f: int) returns (i: nat)
    requires Sound(s) && ValidLog(s, log) && f !in Members(s, k) && f in Members(Exec(s, log), k)
    ensures i < |log| && ComesIn(Exec(s, log[..i]), log[i], k, f) && MemberSince(s, log, k, f, i)
  {
    assert log != [];
    var front, last := log[..|log| - 1], log[|log| - 1];
    if f in Members(Exec(s, front), k) {
      i := AdmissionRun(s, front, k, f);
      assert log[..i] == front[..i] && log[i] == front[i];
    } else {
      RunSound(s, front);
      AdmissionStep(Exec(s, front), last, k, f);
      i := |log| - 1;
      assert log[..i] == front && log[i] == last;
    }
    MemberStill(s, log, k, f, i);
  }

  ghost function InvitesGranted(s: State, log: seq<Event>, k: string): nat {
    if log == [] then 0
    else
      InvitesGranted(s, log[..|log| - 1], k) +
      if GrantsInvite(Exec(s, log[..|log| - 1]), log[|log| - 1], k) then 1 else 0
  }

  /** An INVITE to the channel that lets somebody in who was not invited before. */
  ghost predicate GrantsInvite(s: State, e: Event, k: string) {
    e.Command? && Parse(e.line).command == "INVITE" && Widens(s, Next(s, e), Parse(e.line), k)
  }

  predicate Widens(s: State, s': State, msg: Message, k: string) {
    Fold(msg.Param(1)) == k && !(Invited(s', k) <= Invited(s, k))
  }

  /** Somebody has come in through an invite-only door. */
  predicate EntersClosed(s: State, s': State, k: string) {
    k in s.channels && s.channels[k].modes.inviteOnly && !(Members(s', k) <= Members(s, k))
  }

  /** Entries through an invite-only door. */
  ghost function InvitedEntries(s: State, log: seq<Event>, k: string): nat {
    if log == [] then 0
    else
      InvitedEntries(s, log[..|log| - 1], k) + if EntersClosed(Exec(s, log[..|log| - 1]), Exec(s, log), k) then 1 else 0
  }

  lemma CardinalityDrop(a: set<int>, b: set<int>)
    requires b <= a
    ensures |b| <= |a|
    ensures a != b ==> |b| < |a|
  {
    assert a == b + (a - b);
    if a != b { assert a - b != {}; }
  }

  /** Inviting adds one client, entering an invite-only channel uses up one invitation, and
      nothing else adds any. */
  lemma {:induction false} InviteEffect(s: State, fd: int, msg: Message, verb: Verb, eff: Effect, k: string)
    requires Sound(s) && fd in s.clients && Allowed(s, fd, msg, eff) && Fits(verb, eff)
    ensures Counted(s, Apply(s, fd, eff), k, verb.INVITE? && Widens(s, Apply(s, fd, eff), msg, k))
  {
    var s' := Apply(s, fd, eff);
    if eff.InviteIn? && Fold(eff.name) == k {
      assert Invited(s', k) == Invited(s, k) + {eff.who};
      EffectOnMembers(s, fd, eff, k);
    } else {
      EffectOnInvited(s, fd, eff, k);
      CardinalityDrop(Invited(s, k), Invited(s', k));
      if eff.Enter? && Fold(eff.name) == k {
        if k in s.channels && fd !in s.channels[k].members { assert Invited(s', k) == Invited(s, k) - {fd}; }
      } else {
        EffectOnMembers(s, fd, eff, k);
      }
    }
  }

  /** At most one more invitation, if it is granted; one less for an entry under +i. */
  predicate Counted(s: State, s': State, k: string, granted: bool) {
    |Invited(s', k)| <= |Invited(s, k)| + (if granted then 1 else 0) &&
    (EntersClosed(s, s', k) ==> |Invited(s', k)| < |Invited(s, k)| && !granted)
  }

  lemma {:induction false} InviteStep(s: State, e: Event, k: string)
    requires Sound(s) && Enabled(s, e)
    ensures Counted(s, Next(s, e), k, GrantsInvite(s, e, k))
  {
    if e.Command? {
      var msg := Parse(e.line);
      ParsedFromLine(e.line);
      DecideAllowed(s, e.fd, msg);
      Spelled(msg.command, INVITE);
      InviteEffect(s, e.fd, msg, VerbOf(msg.command), Decide(s, e.fd, msg), k);
    } else {
      NobodyInvited(s, e, k);
    }
  }

  lemma {:induction false} NobodyInvited(s: State, e: Event, k: string)
    requires Enabled(s, e) && !e.Command?
    ensures Counted(s, Next(s, e), k, false)
  {
    assert Invited(Next(s, e), k) <= Invited(s, k) && Members(Next(s, e), k) <= Members(s, k);
    CardinalityDrop(Invited(s, k), Invited(Next(s, e), k));
  }

  /** Every entry under +i uses up an invitation: over any run the entries through the invite-only
      door never exceed the invitations granted (plus those outstanding at the start). */
  lemma {:induction false} EntriesNeedInvites(s: State, log: seq<Event>, k: string)
    requires Sound(s) && ValidLog(s, log)
    ensures InvitedEntries(s, log, k) + |Invited(Exec(s, log), k)| <= InvitesGranted(s, log, k) + |Invited(s, k)|
  {
    if log != [] {
      var front := log[..|log| - 1];
      EntriesNeedInvites(s, front, k);
      RunSound(s, front);
      InviteStep(Exec(s, front), log[|log| - 1], k);
    }
  }

  /** The limit `limit` is in force throughout. */
  ghost predicate LimitStands(s: State, log: seq<Event>, k: string, limit: int) {
    k in Exec(s, log).channels && Exec(s, log).channels[k].modes.limit == limit &&
    (log != [] ==> LimitStands(s, log[..|log| - 1], k, limit))
  }

  lemma LimitStep(s: State, e: Event, k: string)
    requires Sound(s) && Enabled(s, e) && k in s.channels && k in Next(s, e).channels
    requires s.channels[k].modes.limit >= 0
    ensures |Next(s, e).channels[k].members| <= |s.channels[k].members| ||
            |Next(s, e).channels[k].members| <= s.channels[k].modes.limit
  {
    var before, after := s.channels[k].members, Next(s, e).channels[k].members;
    if e.Command? {
      var msg := Parse(e.line);
      ParsedFromLine(e.line);
      DecideAllowed(s, e.fd, msg);
      LimitEffect(s, e.fd, msg, Decide(s, e.fd, msg), k);
    } else {
      CardinalityDrop(before, after);
    }
  }

  lemma LimitEffect(s: State, fd: int, msg: Message, eff: Effect, k: string)
    requires Sound(s) && fd in s.clients && Allowed(s, fd, msg, eff)
    requires k in s.channels && k in Apply(s, fd, eff).channels && s.channels[k].modes.limit >= 0
    ensures var before, after := s.channels[k].members, Apply(s, fd, eff).channels[k].members;
            |after| <= |before| || |after| <= s.channels[k].modes.limit
  {
    var before, after := s.channels[k].members, Apply(s, fd, eff).channels[k].members;
    if eff.Enter? && Fold(eff.name) == k {
      if fd !in before { assert after == before + {fd}; }
    } else {
      EffectOnMembers(s, fd, eff, k);
      CardinalityDrop(before, after);
    }
  }

  /** While a limit stands, the member count never exceeds the larger of the limit and the
      count at the time it was set. */
  lemma {:induction false} LimitHolds(s: State, log: seq<Event>, k: string, limit: int)
    requires Sound(s) && ValidLog(s, log) && limit >= 0 && LimitStands(s, log, k, limit)
    ensures k in s.channels
    ensures |Exec(s, log).channels[k].members| <= limit ||
            |Exec(s, log).channels[k].members| <= |s.channels[k].members|
  {
    if log != [] {
      var front := log[..|log| - 1];
      LimitHolds(s, front, k, limit);
      RunSound(s, front);
      LimitStep(Exec(s, front), log[|log| - 1], k);
    }
  }

  // ----- Relayed text -----------------------------------------------------------------------

  /** The nickname in a prefix (bonus/Bot.cpp). */
  function SenderNick(prefix: string): string {
    if '!' in prefix then prefix[..IndexOf(prefix, '!')]
    else if '@' in prefix then prefix[..IndexOf(prefix, '@')]
    else prefix
  }

  function IndexOf(s: string, c: char): (n: nat)
    ensures n <= |s|
    ensures c in s ==> n < |s| && s[n] == c
    ensures forall i :: 0 <= i < n ==> s[i] != c
  {
    if s == "" || s[0] == c then 0 else 1 + IndexOf(s[1..], c)
  }

  lemma SenderOfPrefix(c: Client)
    requires GoodClient(c)
    ensures SenderNick(FullPrefix(c)) == c.nick
  {
    var prefix := FullPrefix(c);
    if c.nick != "" { NickIsPlain(c.nick); }
    assert prefix[|c.nick|] == '!';
    var n := IndexOf(prefix, '!');
    assert forall i :: 0 <= i < |c.nick| ==> prefix[i] == c.nick[i] && c.nick[i] in c.nick;
    assert n == |c.nick|;
  }

  predicate IsText(e: Event) { e.Command? && Parse(e.line).command in {"PRIVMSG", "NOTICE"} }

  predicate ToChannel(target: string) { target != "" && target[0] == '#' }

  /** A text is passed on when a registered client gives a target and a text, and the target is a
      channel it is on or a valid nickname that somebody holds. */
  predicate Deliverable(s: State, fd: int, msg: Message) {
    fd in s.clients && s.clients[fd].registered && |msg.params| >= 2 &&
    if ToChannel(msg.Param(0)) then OnChannel(s, fd, msg.Param(0))
    else ValidNick(msg.Param(0)) && Holders(s, msg.Param(0)) != {}
  }

  /** Everybody else on the channel hears it, or the holder of the nickname. */
  predicate Hears(s: State, fd: int, msg: Message, f: int) {
    if ToChannel(msg.Param(0)) then f != fd && OnChannel(s, f, msg.Param(0)) else f in Holders(s, msg.Param(0))
  }

  function RelayedLine(s: State, fd: int, msg: Message): Line
    requires fd in s.clients
  {
    TextLine(s.clients[fd], msg.command, msg.Param(0), msg.Param(1))
  }

  lemma {:induction false} TextDecision(s: State, fd: int, msg: Message)
    requires Sound(s) && fd in s.clients && msg.command in {"PRIVMSG", "NOTICE"}
    ensures var eff, target := DecideText(s, fd, s.clients[fd], msg, msg.command), msg.Param(0);
            if !Deliverable(s, fd, msg) then
              if msg.command == "PRIVMSG" then eff.Reply? && eff.line.prefix == SERVER_NAME else eff.Ignore?
            else if ToChannel(target) then eff == RelayAll(target, RelayedLine(s, fd, msg))
            else Holders(s, target) != {} && eff == RelayOne(Pick(Holders(s, target)), RelayedLine(s, fd, msg))
  {
    var target := msg.Param(0);
    if Exists(s, target) {
      assert GoodChannel(s.clients, Fold(target), Chan(s, target));
      SameValidity(Chan(s, target).name, target);
    }
  }

  lemma {:induction false} TextDecided(s: State, fd: int, msg: Message)
    requires fd in s.clients && msg.command in {"PRIVMSG", "NOTICE"}
    ensures Decide(s, fd, msg) == DecideText(s, fd, s.clients[fd], msg, msg.command)
  {
    Spelled(msg.command, PRIVMSG);
    Spelled(msg.command, NOTICE);
  }

  /** PRIVMSG and NOTICE change nothing; they reach exactly those who are to hear them, once each,
      exactly when they can be delivered; otherwise a PRIVMSG gets one error and a NOTICE nothing. */
  lemma {:induction false} TextIff(s: State, e: Event, f: int)
    requires Sound(s) && Enabled(s, e) && IsText(e)
    ensures Next(s, e) == s
    ensures var msg, outs := Parse(e.line), Outputs(s, e);
            if Deliverable(s, e.fd, msg) then
              ToFd(outs, f) == if Hears(s, e.fd, msg, f) then [RelayedLine(s, e.fd, msg)] else []
            else if msg.command == "NOTICE" then outs == []
            else |outs| == 1 && outs[0].fd == e.fd && outs[0].line.prefix == SERVER_NAME
  {
    TextDecided(s, e.fd, Parse(e.line));
    TextEffect(s, e.fd, Parse(e.line), e.order, f);
  }

  lemma {:induction false} TextEffect(s: State, fd: int, msg: Message, order: seq<int>, f: int)
    requires Sound(s) && fd in s.clients && msg.command in {"PRIVMSG", "NOTICE"}
    requires Enumerates(order, Audience(s, fd, DecideText(s, fd, s.clients[fd], msg, msg.command)))
    ensures var eff := DecideText(s, fd, s.clients[fd], msg, msg.command);
            var outs := Emit(s, fd, eff, order);
            Apply(s, fd, eff) == s &&
            if Deliverable(s, fd, msg) then
              ToFd(outs, f) == if Hears(s, fd, msg, f) then [RelayedLine(s, fd, msg)] else []
            else if msg.command == "NOTICE" then outs == []
            else |outs| == 1 && outs[0].fd == fd && outs[0].line.prefix == SERVER_NAME
  {
    TextDecision(s, fd, msg);
    TextSent(s, fd, DecideText(s, fd, s.clients[fd], msg, msg.command), order, f);
    if Holders(s, msg.Param(0)) != {} { HolderUnique(s, msg.Param(0), Pick(Holders(s, msg.Param(0)))); }
  }

  lemma {:induction false} TextSent(s: State, fd: int, eff: Effect, order: seq<int>, f: int)
    requires fd in s.clients && Enumerates(order, Audience(s, fd, eff))
    ensures eff.RelayAll? ==>
              ToFd(Emit(s, fd, eff, order), f) == if f != fd && OnChannel(s, f, eff.name) then [eff.line] else []
    ensures eff.RelayOne? ==> ToFd(Emit(s, fd, eff, order), f) == if f == eff.to then [eff.line] else []
  {
    if eff.RelayAll? { ToAllOnce(order, eff.line, fd, f); }
    if eff.RelayOne? {
      ToFdOne(Out(eff.to, eff.line), f);
    }
  }

  /** The line that a delivered text puts on the wire, once framed and parsed by a receiver, gives
      back the sender's prefix, the target and the exact text, and the prefix names the sender. */
  lemma {:induction false} RelayIsFaithful(s: State, fd: int, line: string)
    requires Sound(s) && NoNewline(line)
    requires Parse(line).command in {"PRIVMSG", "NOTICE"} && Deliverable(s, fd, Parse(line))
    ensures var msg, l := Parse(line), RelayedLine(s, fd, Parse(line));
            Lines(Render(l)) == [Body(l)] &&
            ParseBody(Body(l)) == Message(FullPrefix(s.clients[fd]), msg.command, [msg.Param(0), msg.Param(1)]) &&
            SenderNick(FullPrefix(s.clients[fd])) == s.clients[fd].nick
  {
    var msg, c, l := Parse(line), s.clients[fd], RelayedLine(s, fd, Parse(line));
    ParsedFromLine(line);
    assert IsMiddle(msg.params[0]);
    ParamClean(msg, 0);
    ParamClean(msg, 1);
    TargetClean(c);
    SenderOfPrefix(c);
    TextCommands(msg.command);
    assert CleanLine(l);
    RenderIsOneLine(l);
    RelayLineParses(c, l);
  }

  lemma TextCommands(command: string)
    requires command in {"PRIVMSG", "NOTICE"}
    ensures Upper(command) == command && command != "" && command[0] != ':' && SpaceFree(command) && NoNewline(command)
  {
  }

  lemma RelayLineParses(c: Client, l: Line)
    requires GoodClient(c) && l.command in {"PRIVMSG", "NOTICE"}
    requires l.prefix == FullPrefix(c) && |l.middles| == 1 && IsMiddle(l.middles[0]) && l.trailing.Some?
    ensures ParseBody(Body(l)) == Message(FullPrefix(c), l.command, [l.middles[0], l.trailing.value])
  {
    TargetClean(c);
    assert forall m <- l.middles :: m == l.middles[0];
    TextCommands(l.command);
    ParseOfRender(l);
    assert AllParams(l) == [l.middles[0], l.trailing.value];
  }
}
