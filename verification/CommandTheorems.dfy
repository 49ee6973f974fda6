/** Who may do what to a channel, event by event, and exactly when NICK, JOIN, KICK, PART, INVITE,
    TOPIC and MODE take effect (src/b/CommandDispatcher.cpp, src/b/ChannelCommandHandler.cpp). */
module CommandTheorems {
  import opened IrcText
  import opened Wire
  import opened Modes
  import opened Model
  import opened Soundness
  import opened Runs

  /** The permissions of one event, whatever it is: a member disappears only by its own PART or
      disconnect or by the KICK of a channel operator; a topic is changed only by the TOPIC of a
      member, an operator under +t; an invitation comes only from the INVITE of a member, an
      operator under +i, for somebody outside. */
  lemma {:induction false} PermissionStep(s: State, e: Event, k: string, f: int)
    requires Sound(s) && Enabled(s, e) && k in s.channels
    ensures var ch, after := s.channels[k], Next(s, e).channels;
            (f in ch.members && !(k in after && f in after[k].members) ==>
              if e.Command? then MayRemove(ch, e.fd, Asks(e), f) else e.fd == f) &&
            (k in after && after[k].topic != ch.topic ==>
              e.Command? && MaySetTopic(ch, e.fd, Asks(e))) &&
            (k in after && f in after[k].invited && f !in ch.invited ==>
              e.Command? && MayInvite(ch, e.fd, Asks(e), f))
  {
    if e.Command? {
      var msg := Parse(e.line);
      ParsedFromLine(e.line);
      DecideAllowed(s, e.fd, msg);
      var eff := Decide(s, e.fd, msg);
      if f in s.channels[k].members { RemovalEffect(s, e.fd, msg, Asks(e), eff, k, f); }
      TopicEffect(s, e.fd, msg, Asks(e), eff, k);
      InvitationEffect(s, e.fd, msg, Asks(e), eff, k, f);
    }
  }

  predicate MayRemove(ch: Channel, fd: int, verb: Verb, f: int) {
    (fd == f && verb.PART?) || (fd in ch.ops && verb.KICK?)
  }

  predicate MaySetTopic(ch: Channel, fd: int, verb: Verb) {
    verb.TOPIC? && fd in ch.members && (ch.modes.topicRestricted ==> fd in ch.ops)
  }

  predicate MayInvite(ch: Channel, fd: int, verb: Verb, f: int) {
    verb.INVITE? && fd in ch.members && (ch.modes.inviteOnly ==> fd in ch.ops) && f !in ch.members
  }

  lemma {:induction false} RemovalEffect(s: State, fd: int, msg: Message, verb: Verb, eff: Effect, k: string, f: int)
    requires Sound(s) && fd in s.clients && Allowed(s, fd, msg, eff) && Fits(verb, eff) && k in s.channels
    requires f in s.channels[k].members
    ensures var ch, after := s.channels[k], Apply(s, fd, eff).channels;
            !(k in after && f in after[k].members) ==> MayRemove(ch, fd, verb, f)
  {
    if !(eff.Depart? && f == fd) && !(eff.Expel? && f == eff.who) { EffectKeepsMember(s, fd, eff, k, f); }
  }

  lemma {:induction false} TopicEffect(s: State, fd: int, msg: Message, verb: Verb, eff: Effect, k: string)
    requires Sound(s) && fd in s.clients && Allowed(s, fd, msg, eff) && Fits(verb, eff) && k in s.channels
    ensures var ch, after := s.channels[k], Apply(s, fd, eff).channels;
            k in after && after[k].topic != ch.topic ==> MaySetTopic(ch, fd, verb)
  {
    if k in Apply(s, fd, eff).channels && !(eff.ChangeTopic? && Fold(eff.name) == k) { EffectOnTopic(s, fd, eff, k); }
  }

  lemma {:induction false} InvitationEffect(s: State, fd: int, msg: Message, verb: Verb, eff: Effect, k: string, f: int)
    requires Sound(s) && fd in s.clients && Allowed(s, fd, msg, eff) && Fits(verb, eff) && k in s.channels
    ensures var ch, after := s.channels[k], Apply(s, fd, eff).channels;
            k in after && f in after[k].invited && f !in ch.invited ==> MayInvite(ch, fd, verb, f)
  {
    if !(eff.InviteIn? && Fold(eff.name) == k) { EffectOnInvited(s, fd, eff, k); }
  }

  /** What no command does. Other clients' records, the password and names of channels do not change,
      the sender's record only by PASS, NICK or USER; a channel is gone only when its last member
      leaves by its PART or an operator's KICK; a member that stays loses its operator flag only by
      the MODE of an operator, and an invitation is used up only by the JOIN of the invited. */
  lemma {:induction false} FrameStep(s: State, e: Event, k: string, f: int)
    requires Sound(s) && Enabled(s, e) && e.Command? && k in s.channels
    ensures var t, ch, verb := Next(s, e), s.channels[k], Asks(e);
            t.password == s.password && t.clients.Keys == s.clients.Keys &&
            (f in s.clients && t.clients[f] != s.clients[f] ==>
              f == e.fd && (verb.PASS? || verb.NICK? || verb.USER?)) &&
            (k !in t.channels ==> exists g :: ch.members == {g} && MayRemove(ch, e.fd, verb, g)) &&
            (k in t.channels ==> Keeps(ch, t.channels[k], e.fd, verb, f))
  {
    var msg := Parse(e.line);
    ParsedFromLine(e.line);
    DecideAllowed(s, e.fd, msg);
    var eff := Decide(s, e.fd, msg);
    ClientsStay(s, e.fd, eff);
    if f in s.clients && !(f == e.fd && (eff.AcceptPass? || eff.TakeNick? || eff.TakeUser?)) {
      EffectOnClient(s, e.fd, eff, f);
    }
    EffectKeepsChannel(s, e.fd, eff, k);
    if k in Next(s, e).channels {
      KeepsEffect(s, e.fd, msg, Asks(e), eff, k, f);
    } else {
      GoneEffect(s, e.fd, msg, Asks(e), eff, k);
    }
  }

  /** What a channel keeps while it exists. */
  predicate Keeps(ch: Channel, after: Channel, fd: int, verb: Verb, f: int) {
    after.name == ch.name &&
    (f in ch.ops && f !in after.ops ==> f !in after.members || (verb.MODE? && fd in ch.ops)) &&
    (f in ch.invited && f !in after.invited ==> verb.JOIN? && f == fd)
  }

  lemma {:induction false} KeepsEffect(s: State, fd: int, msg: Message, verb: Verb, eff: Effect, k: string, f: int)
    requires Sound(s) && fd in s.clients && Allowed(s, fd, msg, eff) && Fits(verb, eff)
    requires k in s.channels && k in Apply(s, fd, eff).channels
    ensures Keeps(s.channels[k], Apply(s, fd, eff).channels[k], fd, verb, f)
  {
    var ch, after := s.channels[k], Apply(s, fd, eff).channels[k];
    assert GoodChannel(s.clients, k, ch);
    EffectKeepsChannel(s, fd, eff, k);
    if f in ch.ops && f in after.members && !(eff.ChangeOp? && Fold(eff.name) == k) {
      EffectKeepsOp(s, fd, eff, k, f);
    }
    if f in ch.invited && !(eff.Enter? && f == fd) { EffectKeepsInvitation(s, fd, eff, k, f); }
  }

  lemma {:induction false} GoneEffect(s: State, fd: int, msg: Message, verb: Verb, eff: Effect, k: string)
    requires Sound(s) && fd in s.clients && Allowed(s, fd, msg, eff) && Fits(verb, eff)
    requires k in s.channels && k !in Apply(s, fd, eff).channels
    ensures exists g :: s.channels[k].members == {g} && MayRemove(s.channels[k], fd, verb, g)
  {
    EffectKeepsChannel(s, fd, eff, k);
    var g := if eff.Expel? then eff.who else fd;
    assert s.channels[k].members == {g} && g in Members(s, k) && g !in Members(Apply(s, fd, eff), k);
    RemovalEffect(s, fd, msg, verb, eff, k, g);
  }

  /** A nickname changes only by a command of its holder, to a valid name that nobody else held. */
  lemma {:induction false} NickStep(s: State, e: Event, f: int)
    requires Sound(s) && Enabled(s, e) && f in s.clients && f in Next(s, e).clients
    requires Next(s, e).clients[f].nick != s.clients[f].nick
    ensures e.Command? && Parse(e.line).command == "NICK" && e.fd == f && s.clients[f].passOk
    ensures var nick := Next(s, e).clients[f].nick; ValidNick(nick) && Holders(s, nick) <= {f}
  {
    if e.Command? {
      var msg := Parse(e.line);
      ParsedFromLine(e.line);
      DecideAllowed(s, e.fd, msg);
      Spelled(msg.command, NICK);
      NickEffect(s, e.fd, msg, VerbOf(msg.command), Decide(s, e.fd, msg), f);
    }
  }

  lemma {:induction false} NickEffect(s: State, fd: int, msg: Message, verb: Verb, eff: Effect, f: int)
    requires fd in s.clients && f in s.clients && f in Apply(s, fd, eff).clients
    requires Allowed(s, fd, msg, eff) && Fits(verb, eff)
    requires Apply(s, fd, eff).clients[f].nick != s.clients[f].nick
    ensures verb.NICK? && fd == f && s.clients[f].passOk
    ensures var nick := Apply(s, fd, eff).clients[f].nick; ValidNick(nick) && Holders(s, nick) <= {f}
  {
  }

  /** A command whose name is known. */
  ghost predicate Issues(s: State, e: Event, verb: Verb) {
    Sound(s) && Enabled(s, e) && e.Command? && Parse(e.line).command == Name(verb)
  }

  lemma {:induction false} Decided(s: State, e: Event, verb: Verb)
    requires Issues(s, e, verb) && !verb.UNKNOWN?
    ensures Next(s, e) == Apply(s, e.fd, DecideVerb(s, e.fd, Parse(e.line), verb))
    ensures Outputs(s, e) == Emit(s, e.fd, DecideVerb(s, e.fd, Parse(e.line), verb), e.order)
  {
    Spelled(Parse(e.line).command, verb);
  }

  /** NICK takes effect exactly when the password was given, the name is valid and no other
      client holds it under case folding. */
  lemma {:induction false} NickIff(s: State, e: Event)
    requires Issues(s, e, NICK) && Parse(e.line).HasParam(0)
    ensures var c, nick := s.clients[e.fd], Parse(e.line).Param(0);
            Next(s, e).clients[e.fd].nick ==
            if c.passOk && ValidNick(nick) && Holders(s, nick) <= {e.fd} then nick else c.nick
  {
    var holders := Holders(s, Parse(e.line).Param(0));
    assert holders - {e.fd} == {} <==> holders <= {e.fd};
    Decided(s, e, NICK);
  }

  /** JOIN makes an outsider a member exactly when it is registered, the name is valid and the
      channel is new or lets it through all three gates. */
  lemma {:induction false} JoinIff(s: State, e: Event)
    requires Issues(s, e, JOIN) && Parse(e.line).HasParam(0) && !OnChannel(s, e.fd, Parse(e.line).Param(0))
    ensures var msg := Parse(e.line);
            var name := msg.Param(0);
            OnChannel(Next(s, e), e.fd, name) <==>
            s.clients[e.fd].registered && ValidChannel(name) && (Exists(s, name) ==> Admitted(Chan(s, name), e.fd, msg))
  {
    Decided(s, e, JOIN);
    JoinDecision(s, e.fd, Parse(e.line));
  }

  lemma {:induction false} JoinDecision(s: State, fd: int, msg: Message)
    requires fd in s.clients && msg.HasParam(0) && !OnChannel(s, fd, msg.Param(0))
    ensures var name := msg.Param(0);
            OnChannel(Apply(s, fd, DecideVerb(s, fd, msg, JOIN)), fd, name) <==>
            s.clients[fd].registered && ValidChannel(name) && (Exists(s, name) ==> Admitted(Chan(s, name), fd, msg))
  {
  }

  /** KICK removes a member exactly when an operator of the channel names the nickname the member
      holds, in a spelling that is itself a valid nickname: '~' folds to '^' but only the latter
      may be part of a nickname. */
  lemma {:induction false} KickIff(s: State, e: Event, f: int)
    requires Issues(s, e, KICK) && |Parse(e.line).params| >= 2 && OnChannel(s, f, Parse(e.line).Param(0))
    ensures var msg := Parse(e.line);
            var name := msg.Param(0);
            !OnChannel(Next(s, e), f, name) <==>
            OperatorOf(s, e.fd, name) && ValidNick(msg.Param(1)) && f in Holders(s, msg.Param(1))
  {
    Decided(s, e, KICK);
    KickDecision(s, e.fd, Parse(e.line), f);
  }

  lemma {:induction false} KickDecision(s: State, fd: int, msg: Message, f: int)
    requires Sound(s) && fd in s.clients && |msg.params| >= 2 && OnChannel(s, f, msg.Param(0))
    ensures var name := msg.Param(0);
            !OnChannel(Apply(s, fd, DecideVerb(s, fd, msg, KICK)), f, name) <==>
            OperatorOf(s, fd, name) && ValidNick(msg.Param(1)) && f in Holders(s, msg.Param(1))
  {
    var name, nick := msg.Param(0), msg.Param(1);
    assert DecideVerb(s, fd, msg, KICK) == DecideKick(s, fd, s.clients[fd], msg);
    assert GoodChannel(s.clients, Fold(name), Chan(s, name));
    SameValidity(Chan(s, name).name, name);
    if Holders(s, nick) != {} { HolderUnique(s, nick, Pick(Holders(s, nick))); }
    if OperatorOf(s, fd, name) && ValidNick(nick) && Holders(s, nick) != {} {
      var who := Pick(Holders(s, nick));
      if OnChannel(s, who, name) { ExpelDecided(s, fd, msg, who, f); }
    } else {
      assert DecideKick(s, fd, s.clients[fd], msg).Reply?;
    }
  }

  lemma {:induction false} ExpelDecided(s: State, fd: int, msg: Message, who: int, f: int)
    requires fd in s.clients && s.clients[fd].registered && |msg.params| >= 2
    requires var name, nick := msg.Param(0), msg.Param(1);
             ValidChannel(name) && OperatorOf(s, fd, name) && OnChannel(s, fd, name) && ValidNick(nick) &&
             Holders(s, nick) != {} && who == Pick(Holders(s, nick)) && OnChannel(s, who, name)
    ensures var eff := DecideKick(s, fd, s.clients[fd], msg);
            eff.Expel? && (OnChannel(s, f, msg.Param(0)) ==>
              (OnChannel(Apply(s, fd, eff), f, msg.Param(0)) <==> f != who))
  {
  }

  /** PART always leaves the sender outside, and does nothing else exactly when it already was. */
  lemma {:induction false} PartIff(s: State, e: Event)
    requires Issues(s, e, PART) && Parse(e.line).HasParam(0)
    ensures var name := Parse(e.line).Param(0);
            !OnChannel(Next(s, e), e.fd, name) && (Next(s, e) == s <==> !OnChannel(s, e.fd, name))
  {
    Decided(s, e, PART);
    PartDecision(s, e.fd, Parse(e.line));
  }

  lemma {:induction false} PartDecision(s: State, fd: int, msg: Message)
    requires Sound(s) && fd in s.clients && msg.HasParam(0)
    ensures var name, s' := msg.Param(0), Apply(s, fd, DecideVerb(s, fd, msg, PART));
            !OnChannel(s', fd, name) && (s' == s <==> !OnChannel(s, fd, name))
  {
    var name := msg.Param(0);
    if OnChannel(s, fd, name) {
      assert GoodChannel(s.clients, Fold(name), Chan(s, name));
      SameValidity(Chan(s, name).name, name);
    }
  }

  /** INVITE makes `f` invited exactly when it was already or when the sender is on the channel (as
      an operator under +i), `f` is not, and the nickname is a valid spelling of the one `f` holds. */
  lemma {:induction false} InviteIff(s: State, e: Event, f: int)
    requires Issues(s, e, INVITE) && |Parse(e.line).params| >= 2 && Exists(s, Parse(e.line).Param(1))
    ensures var nick, name := Parse(e.line).Param(0), Parse(e.line).Param(1);
            Exists(Next(s, e), name) &&
            (f in Chan(Next(s, e), name).invited <==>
             f in Chan(s, name).invited || Invites(s, e.fd, nick, name, f))
  {
    Decided(s, e, INVITE);
    InviteDecision(s, e.fd, Parse(e.line), f);
  }

  predicate Invites(s: State, fd: int, nick: string, name: string, f: int) {
    OnChannel(s, fd, name) && (Chan(s, name).modes.inviteOnly ==> OperatorOf(s, fd, name)) &&
    ValidNick(nick) && f in Holders(s, nick) && !OnChannel(s, f, name)
  }

  lemma {:induction false} InviteDecision(s: State, fd: int, msg: Message, f: int)
    requires Sound(s) && fd in s.clients && |msg.params| >= 2 && Exists(s, msg.Param(1))
    ensures var name, s' := msg.Param(1), Apply(s, fd, DecideVerb(s, fd, msg, INVITE));
            Exists(s', name) &&
            (f in Chan(s', name).invited <==>
             f in Chan(s, name).invited || Invites(s, fd, msg.Param(0), name, f))
  {
    var nick, name := msg.Param(0), msg.Param(1);
    assert DecideVerb(s, fd, msg, INVITE) == DecideInvite(s, fd, s.clients[fd], msg);
    assert GoodChannel(s.clients, Fold(name), Chan(s, name));
    SameValidity(Chan(s, name).name, name);
    if Holders(s, nick) != {} { HolderUnique(s, nick, Pick(Holders(s, nick))); }
  }

  /** TOPIC with a text sets it exactly when the sender is on the channel, as an operator under +t. */
  lemma {:induction false} TopicIff(s: State, e: Event)
    requires Issues(s, e, TOPIC) && Parse(e.line).HasParam(1) && Exists(s, Parse(e.line).Param(0))
    ensures var name := Parse(e.line).Param(0);
            Exists(Next(s, e), name) &&
            Chan(Next(s, e), name).topic ==
            if MaySetTopic(Chan(s, name), e.fd, TOPIC) then Parse(e.line).Param(1) else Chan(s, name).topic
  {
    Decided(s, e, TOPIC);
    TopicDecision(s, e.fd, Parse(e.line));
  }

  lemma {:induction false} TopicDecision(s: State, fd: int, msg: Message)
    requires Sound(s) && fd in s.clients && msg.HasParam(1) && Exists(s, msg.Param(0))
    ensures var name, s' := msg.Param(0), Apply(s, fd, DecideVerb(s, fd, msg, TOPIC));
            Exists(s', name) &&
            Chan(s', name).topic ==
            if MaySetTopic(Chan(s, name), fd, TOPIC) then msg.Param(1) else Chan(s, name).topic
  {
    var name := msg.Param(0);
    assert GoodChannel(s.clients, Fold(name), Chan(s, name));
    SameValidity(Chan(s, name).name, name);
  }

  /** The modes a MODE command asks for, if it asks for a change of i, t, k or l that can be made. */
  function Requested(modes: ChannelModes, msg: Message): Option<ChannelModes> {
    var token := msg.Param(1);
    if !IsModeToken(token) || token[1] == 'o' then None
    else
      var takes := token[0] == '+' && token[1] in "kl";
      Change(modes, token[0] == '+', token[1], if takes && msg.HasParam(2) then Some(msg.Param(2)) else None)
  }

  /** MODE changes the modes exactly as requested when an operator asks, and else not at all; it
      makes or unmakes `f` an operator exactly when an operator names a valid spelling of the
      nickname `f` holds on the channel. */
  lemma {:induction false} ModeIff(s: State, e: Event, f: int)
    requires Issues(s, e, MODE) && Parse(e.line).HasParam(1) && Exists(s, Parse(e.line).Param(0))
    ensures var msg := Parse(e.line);
            Exists(Next(s, e), msg.Param(0)) &&
            ModesFollow(s, e.fd, msg, Chan(s, msg.Param(0)), Chan(Next(s, e), msg.Param(0))) &&
            OpsFollow(s, e.fd, msg, Chan(s, msg.Param(0)), Chan(Next(s, e), msg.Param(0)), f)
  {
    Decided(s, e, MODE);
    ModeDecision(s, e.fd, Parse(e.line), f);
  }

  predicate ModesFollow(s: State, fd: int, msg: Message, before: Channel, after: Channel) {
    after.modes ==
    if fd in before.ops && Requested(before.modes, msg).Some? then Requested(before.modes, msg).value else before.modes
  }

  predicate OpsFollow(s: State, fd: int, msg: Message, before: Channel, after: Channel, f: int) {
    f in after.ops <==>
    if fd in before.ops && IsModeToken(msg.Param(1)) && msg.Param(1)[1] == 'o' && msg.HasParam(2) &&
       ValidNick(msg.Param(2)) && f in Holders(s, msg.Param(2)) && f in before.members
    then msg.Param(1)[0] == '+'
    else f in before.ops
  }

  lemma {:induction false} ModeDecision(s: State, fd: int, msg: Message, f: int)
    requires Sound(s) && fd in s.clients && msg.HasParam(1) && Exists(s, msg.Param(0))
    ensures var s' := Apply(s, fd, DecideVerb(s, fd, msg, MODE));
            Exists(s', msg.Param(0)) &&
            ModesFollow(s, fd, msg, Chan(s, msg.Param(0)), Chan(s', msg.Param(0))) &&
            OpsFollow(s, fd, msg, Chan(s, msg.Param(0)), Chan(s', msg.Param(0)), f)
  {
    var c, name, token := s.clients[fd], msg.Param(0), msg.Param(1);
    assert DecideVerb(s, fd, msg, MODE) == DecideMode(s, fd, c, msg);
    assert GoodChannel(s.clients, Fold(name), Chan(s, name));
    SameValidity(Chan(s, name).name, name);
    if OperatorOf(s, fd, name) && IsModeToken(token) {
      if token[1] == 'o' {
        assert DecideMode(s, fd, c, msg) == DecideOp(s, c, msg, name, token);
        OpDecision(s, fd, msg, f);
      } else {
        assert DecideMode(s, fd, c, msg) == DecideChange(c, msg, name, token, Chan(s, name).modes);
      }
    } else {
      assert DecideMode(s, fd, c, msg).Reply?;
    }
  }

  lemma {:induction false} OpDecision(s: State, fd: int, msg: Message, f: int)
    requires Sound(s) && fd in s.clients && OperatorOf(s, fd, msg.Param(0))
    requires IsModeToken(msg.Param(1)) && msg.Param(1)[1] == 'o'
    ensures var s' := Apply(s, fd, DecideOp(s, s.clients[fd], msg, msg.Param(0), msg.Param(1)));
            Exists(s', msg.Param(0)) && Chan(s', msg.Param(0)).modes == Chan(s, msg.Param(0)).modes &&
            OpsFollow(s, fd, msg, Chan(s, msg.Param(0)), Chan(s', msg.Param(0)), f)
  {
    var nick := msg.Param(2);
    if Holders(s, nick) != {} { HolderUnique(s, nick, Pick(Holders(s, nick))); }
  }
}
