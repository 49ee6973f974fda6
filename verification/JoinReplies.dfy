/** What JOIN sends: which gate refuses whom, and otherwise the announcement to the members and the
    topic and the member list to the newcomer (src/b/CommandDispatcher.cpp, src/b/ReplyBuilder.cpp). */
module JoinReplies {
  import opened IrcText
  import opened Wire
  import opened Framing
  import opened Model
  import opened Soundness
  import opened Runs
  import opened CommandTheorems
  import opened Wording
  import opened Replies

  // ----- The member list --------------------------------------------------------------------

  /** Where the first blank is, or the length. */
  function BlankAt(s: string): (n: nat)
    ensures n <= |s| && (forall i :: 0 <= i < n ==> s[i] != ' ') && (n < |s| ==> s[n] == ' ')
  {
    if s == "" || s[0] == ' ' then 0 else 1 + BlankAt(s[1..])
  }

  /** A text cut at its blanks. */
  function Cells(s: string): seq<string> {
    if BlankAt(s) == |s| then [s] else [s[..BlankAt(s)]] + Cells(s[BlankAt(s) + 1..])
  }

  lemma {:induction false} CellsOne(word: string)
    requires SpaceFree(word)
    ensures Cells(word) == [word]
  {
    assert forall i :: 0 <= i < |word| ==> word[i] in word;
  }

  lemma {:induction false} CellsFirst(first: string, rest: string)
    requires SpaceFree(first)
    ensures Cells(first + " " + rest) == [first] + Cells(rest)
  {
    var all := first + " " + rest;
    assert forall i :: 0 <= i < |first| ==> all[i] == first[i] && first[i] in first;
    assert all[|first|] == ' ';
    assert BlankAt(all) == |first|;
    assert all[..|first|] == first && all[|first| + 1..] == rest;
  }

  lemma {:induction false} CutAtBlank(s: string) returns (first: string, rest: string)
    requires BlankAt(s) < |s|
    ensures SpaceFree(first) && s == first + " " + rest && |rest| < |s|
  {
    var n := BlankAt(s);
    first, rest := s[..n], s[n + 1..];
    assert s == first + [s[n]] + rest;
  }

  lemma {:induction false} CellsMore(s: string, word: string)
    requires SpaceFree(word)
    ensures Cells(s + " " + word) == Cells(s) + [word]
    decreases |s|
  {
    CellsOne(word);
    if BlankAt(s) == |s| {
      NoBlank(s);
      CellsOne(s);
      CellsFirst(s, word);
    } else {
      var first, rest := CutAtBlank(s);
      CellsFirst(first, rest);
      CellsMore(rest, word);
      CellsFirst(first, rest + " " + word);
      assert s + " " + word == first + " " + (rest + " " + word);
      Regrouped([first], Cells(rest), [word]);
    }
  }

  lemma {:induction false} NoBlank(s: string)
    requires BlankAt(s) == |s|
    ensures SpaceFree(s)
  {
  }

  /** The text names each listed client in its own word, the operators with an at sign. */
  predicate Lists(names: string, clients: map<int, Client>, ops: set<int>, order: seq<int>) {
    var words := Cells(names);
    |words| == |order| &&
    forall i :: 0 <= i < |order| ==>
      order[i] in clients && words[i] == (if order[i] in ops then "@" else "") + clients[order[i]].nick
  }

  predicate Nameable(clients: map<int, Client>, order: seq<int>) {
    forall f <- order :: f in clients && clients[f].nick != "" && SpaceFree(clients[f].nick)
  }

  lemma {:induction false} NamesListed(clients: map<int, Client>, ops: set<int>, order: seq<int>)
    requires order != [] && Nameable(clients, order)
    ensures Names(clients, ops, order) != "" && Lists(Names(clients, ops, order), clients, ops, order)
  {
    var front, f := order[..|order| - 1], order[|order| - 1];
    assert f in order && order == front + [f];
    NamesStep(clients, ops, order);
    if front == [] {
      ListsOne(clients, ops, f);
      assert order == [f];
    } else {
      NamesListed(clients, ops, front);
      ListsMore(Names(clients, ops, front), clients, ops, front, f);
    }
  }

  function Word(clients: map<int, Client>, ops: set<int>, f: int): string
    requires f in clients
  {
    (if f in ops then "@" else "") + clients[f].nick
  }

  lemma {:induction false} NamesStep(clients: map<int, Client>, ops: set<int>, order: seq<int>)
    requires order != [] && order[|order| - 1] in clients
    ensures var front, word := Names(clients, ops, order[..|order| - 1]), Word(clients, ops, order[|order| - 1]);
            Names(clients, ops, order) == if front == "" then word else front + " " + word
    ensures Names(clients, ops, []) == ""
  {
    var front, f := Names(clients, ops, order[..|order| - 1]), order[|order| - 1];
    assert Names(clients, ops, order) ==
           (if front == "" then "" else front + " ") + (if f in ops then "@" else "") + clients[f].nick;
    if front != "" { Regrouped(front + " ", if f in ops then "@" else "", clients[f].nick); }
  }

  lemma {:induction false} ListsOne(clients: map<int, Client>, ops: set<int>, f: int)
    requires Nameable(clients, [f])
    ensures f in clients && Lists(Word(clients, ops, f), clients, ops, [f]) && Word(clients, ops, f) != ""
  {
    assert f in [f];
    CellsOne(Word(clients, ops, f));
  }

  lemma {:induction false} ListsMore(names: string, clients: map<int, Client>, ops: set<int>, front: seq<int>, f: int)
    requires Lists(names, clients, ops, front) && Nameable(clients, front + [f])
    ensures f in clients && Lists(names + " " + Word(clients, ops, f), clients, ops, front + [f])
  {
    assert f in front + [f];
    CellsMore(names, Word(clients, ops, f));
  }

  // ----- What is sent -----------------------------------------------------------------------

  /** JOIN: each refusal; otherwise every member afterwards gets the JOIN, and the sender gets the
      topic, or that there is none, the members and the end of the list. */
  lemma {:induction false} JoinReplies(s: State, e: Event) returns (names: string)
    requires Issues(s, e, JOIN)
    ensures JoinAnswers(s, e, s.clients[e.fd], Parse(e.line), names)
  {
    DoesVerb(s, e, JOIN);
    JoinDecided(s, e.fd, Parse(e.line));
    names := JoinTold(s, e, s.clients[e.fd], Parse(e.line), DecideVerb(s, e.fd, Parse(e.line), JOIN));
  }

  ghost predicate JoinAnswers(s: State, e: Event, c: Client, msg: Message, names: string)
    requires e.Command? && e.fd in s.clients
  {
    var name := msg.Param(0);
    if !c.registered then Tells(s, e, "451", "", ":You have not registered")
    else if |msg.params| == 0 then Tells(s, e, "461", "JOIN", "Not enough parameters")
    else if !ValidChannel(name) then Tells(s, e, "403", name, "No such channel")
    else if Exists(s, name) && !OnChannel(s, e.fd, name) && !Admitted(Chan(s, name), e.fd, msg) then
      Rejects(s, e, msg, Chan(s, name), name)
    else
      OnChannel(Next(s, e), e.fd, name) && Enumerates(e.order, Chan(Next(s, e), name).members) &&
      Welcomed(s, e, c, name, Chan(Next(s, e), name), names)
  }

  /** The first gate that is closed. */
  ghost predicate Rejects(s: State, e: Event, msg: Message, ch: Channel, name: string)
    requires e.fd in s.clients
  {
    if ch.modes.inviteOnly && e.fd !in ch.invited then Tells(s, e, "473", name, "Cannot join channel (+i)")
    else if ch.modes.hasKey && (|msg.params| < 2 || msg.params[1] != ch.modes.key) then
      Tells(s, e, "475", name, "Cannot join channel (+k)")
    else Tells(s, e, "471", name, "Cannot join channel (+l)")
  }

  ghost predicate Welcomed(s: State, e: Event, c: Client, name: string, ch: Channel, names: string)
    requires e.Command?
  {
    Lists(names, s.clients, ch.ops, e.order) &&
    forall f :: Bytes(s, e, f) ==
      (if f in ch.members then FromClient(c, "JOIN" + " " + name) else "") +
      (if f == e.fd then TopicText(c, name, ch.topic) + NamesText(c, ch.name, names) + EndText(c, name) else "")
  }

  function TopicText(c: Client, name: string, topic: string): string {
    if topic == "" then FromServer("331", Addressee(c), name, "No topic is set")
    else FromServer("332", Addressee(c), name, topic)
  }

  function NamesText(c: Client, name: string, names: string): string {
    FromServer("353", Addressee(c), "= " + name, names)
  }

  function EndText(c: Client, name: string): string { FromServer("366", Addressee(c), name, "End of /NAMES list") }

  // ----- Why --------------------------------------------------------------------------------

  predicate JoinDecides(s: State, fd: int, msg: Message, eff: Effect)
    requires fd in s.clients
  {
    var c, name := s.clients[fd], msg.Param(0);
    if !c.registered then eff == Reply(Err(c, ERR_NOTREGISTERED, ""))
    else if |msg.params| == 0 then eff == Reply(Err(c, ERR_NEEDMOREPARAMS, "JOIN"))
    else if !ValidChannel(name) then eff == Reply(Err(c, ERR_NOSUCHCHANNEL, name))
    else if Exists(s, name) && !OnChannel(s, fd, name) && !Admitted(Chan(s, name), fd, msg) then
      RejectDecides(c, fd, msg, Chan(s, name), name, eff)
    else eff == Enter(name)
  }

  predicate RejectDecides(c: Client, fd: int, msg: Message, ch: Channel, name: string, eff: Effect) {
    if ch.modes.inviteOnly && fd !in ch.invited then eff == Reply(Err(c, ERR_INVITEONLYCHAN, name))
    else if ch.modes.hasKey && (|msg.params| < 2 || msg.params[1] != ch.modes.key) then
      eff == Reply(Err(c, ERR_BADCHANNELKEY, name))
    else eff == Reply(Err(c, ERR_CHANNELISFULL, name))
  }

  lemma {:induction false} JoinDecided(s: State, fd: int, msg: Message)
    requires Sound(s) && fd in s.clients
    ensures JoinDecides(s, fd, msg, DecideVerb(s, fd, msg, JOIN))
  {
  }

  lemma {:induction false} JoinTold(s: State, e: Event, c: Client, msg: Message, eff: Effect) returns (names: string)
    requires e.Command? && Does(s, e, eff) && e.fd in s.clients && c == s.clients[e.fd]
    requires JoinDecides(s, e.fd, msg, eff)
    ensures JoinAnswers(s, e, c, msg, names)
  {
    var name := msg.Param(0);
    names := "";
    RegistrationWorded();
    if !c.registered {
      ErrSent(s, e, eff, ERR_NOTREGISTERED, "451", "", ":You have not registered");
    } else if |msg.params| == 0 {
      ErrSent(s, e, eff, ERR_NEEDMOREPARAMS, "461", "JOIN", "Not enough parameters");
    } else if !ValidChannel(name) {
      NamesWorded();
      ErrSent(s, e, eff, ERR_NOSUCHCHANNEL, "403", name, "No such channel");
    } else if Exists(s, name) && !OnChannel(s, e.fd, name) && !Admitted(Chan(s, name), e.fd, msg) {
      Rejected(s, e, c, msg, Chan(s, name), name, eff);
    } else {
      names := Entered(s, e, c, name, eff);
    }
  }

  lemma {:induction false} Rejected(s: State, e: Event, c: Client, msg: Message, ch: Channel, name: string, eff: Effect)
    requires Does(s, e, eff) && e.fd in s.clients && c == s.clients[e.fd]
    requires RejectDecides(c, e.fd, msg, ch, name, eff)
    ensures Rejects(s, e, msg, ch, name)
  {
    GatesWorded();
    if ch.modes.inviteOnly && e.fd !in ch.invited {
      ErrSent(s, e, eff, ERR_INVITEONLYCHAN, "473", name, "Cannot join channel (+i)");
    } else if ch.modes.hasKey && (|msg.params| < 2 || msg.params[1] != ch.modes.key) {
      ErrSent(s, e, eff, ERR_BADCHANNELKEY, "475", name, "Cannot join channel (+k)");
    } else {
      ErrSent(s, e, eff, ERR_CHANNELISFULL, "471", name, "Cannot join channel (+l)");
    }
  }

  lemma {:induction false} Entered(s: State, e: Event, c: Client, name: string, eff: Effect) returns (names: string)
    requires e.Command? && Does(s, e, eff) && e.fd in s.clients && c == s.clients[e.fd] && eff == Enter(name)
    requires c.registered && ValidChannel(name)
    ensures OnChannel(Next(s, e), e.fd, name) && Enumerates(e.order, Chan(Next(s, e), name).members)
    ensures Welcomed(s, e, c, name, Chan(Next(s, e), name), names)
  {
    OpenDoes(s, e, eff);
    var s' := Next(s, e);
    EnteredMembers(s, e.fd, name);
    var ch := Chan(s', name);
    MembersNameable(s, e.fd, name, e.order);
    NamesListed(s.clients, ch.ops, e.order);
    names := Names(s.clients, ch.ops, e.order);
    EnteredBytes(s, e, c, name, ch, names);
  }

  lemma {:induction false} EnteredMembers(s: State, fd: int, name: string)
    requires Sound(s) && fd in s.clients
    ensures var s' := AddMember(s, fd, name);
            s'.clients == s.clients && OnChannel(s', fd, name) &&
            Chan(s', name).members == (if Exists(s, name) then Chan(s, name).members else {}) + {fd}
  {
  }

  lemma {:induction false} MembersNameable(s: State, fd: int, name: string, order: seq<int>)
    requires Sound(s) && fd in s.clients && s.clients[fd].registered
    requires Enumerates(order, (if Exists(s, name) then Chan(s, name).members else {}) + {fd})
    ensures Nameable(s.clients, order) && order != []
  {
    assert fd in order;
    if Exists(s, name) { assert GoodChannel(s.clients, Fold(name), Chan(s, name)); }
    forall f | f in order ensures f in s.clients && s.clients[f].nick != "" && SpaceFree(s.clients[f].nick) {
      assert f in s.clients && GoodClient(s.clients[f]);
      NickIsPlain(s.clients[f].nick);
    }
  }

  lemma {:induction false} EnteredBytes(s: State, e: Event, c: Client, name: string, ch: Channel, names: string)
    requires e.Command? && e.fd in s.clients && c == s.clients[e.fd] && -1 !in e.order
    requires Outputs(s, e) ==
             ToAll(e.order, ChannelLine(c, "JOIN", name), -1) +
             [Out(e.fd, TopicReply(c, name, ch.topic)), Out(e.fd, NamesLine(c, s.clients, ch, e.order)),
              Out(e.fd, Err(c, RPL_ENDOFNAMES, name))]
    requires names == Names(s.clients, ch.ops, e.order) && Enumerates(e.order, ch.members)
    ensures forall f :: Bytes(s, e, f) ==
              (if f in ch.members then FromClient(c, "JOIN" + " " + name) else "") +
              (if f == e.fd then TopicText(c, name, ch.topic) + NamesText(c, ch.name, names) + EndText(c, name) else "")
  {
    var join := ChannelLine(c, "JOIN", name);
    var topic, list, end := TopicReply(c, name, ch.topic), NamesLine(c, s.clients, ch, e.order),
      Err(c, RPL_ENDOFNAMES, name);
    ChannelBytes(c, "JOIN", name);
    TopicBytes(c, name, ch.topic);
    ServerBytes("353", Addressee(c), "= " + ch.name, names);
    QueriesWorded();
    ServerBytes("366", Addressee(c), name, "End of /NAMES list");
    forall f ensures Bytes(s, e, f) ==
        (if f in ch.members then Render(join) else "") +
        (if f == e.fd then Render(topic) + Render(list) + Render(end) else "")
    {
      ToFdConcat(ToAll(e.order, join, -1), [Out(e.fd, topic), Out(e.fd, list), Out(e.fd, end)], f);
      ToAllOnce(e.order, join, -1, f);
      ThreeOuts(e.fd, topic, list, end, f);
      RenderConcat(if f in ch.members then [join] else [], if f == e.fd then [topic, list, end] else []);
      OneLine(join);
      ThreeLines(topic, list, end);
    }
  }

  lemma {:induction false} TopicBytes(c: Client, name: string, topic: string)
    ensures Render(TopicReply(c, name, topic)) == TopicText(c, name, topic)
  {
    QueriesWorded();
    if topic == "" {
      ServerBytes("331", Addressee(c), name, "No topic is set");
    } else {
      ServerBytes("332", Addressee(c), name, topic);
    }
  }

  lemma {:induction false} ThreeOuts(fd: int, a: Line, b: Line, c: Line, f: int)
    ensures ToFd([Out(fd, a), Out(fd, b), Out(fd, c)], f) == if f == fd then [a, b, c] else []
  {
    assert [Out(fd, a), Out(fd, b), Out(fd, c)] == [Out(fd, a)] + [Out(fd, b)] + [Out(fd, c)];
    ToFdConcat([Out(fd, a)] + [Out(fd, b)], [Out(fd, c)], f);
    ToFdConcat([Out(fd, a)], [Out(fd, b)], f);
    ToFdOne(Out(fd, a), f);
    ToFdOne(Out(fd, b), f);
    ToFdOne(Out(fd, c), f);
  }

  lemma {:induction false} RenderConcat(a: seq<Line>, b: seq<Line>)
    ensures RenderAll(a + b) == RenderAll(a) + RenderAll(b)
  {
    if b == [] {
      assert a + b == a;
    } else {
      var front, last := b[..|b| - 1], b[|b| - 1];
      RenderConcat(a, front);
      Regrouped(a, front, [last]);
      assert b == front + [last];
      RenderAllAppend(a + front, last);
      RenderAllAppend(front, last);
      Regrouped(RenderAll(a), RenderAll(front), Render(last));
    }
  }

  lemma {:induction false} ThreeLines(a: Line, b: Line, c: Line)
    ensures RenderAll([a, b, c]) == Render(a) + Render(b) + Render(c)
  {
    assert [a, b, c] == [a, b] + [c] && [a, b] == [a] + [b];
    RenderConcat([a, b], [c]);
    RenderConcat([a], [b]);
    OneLine(a);
    OneLine(b);
    OneLine(c);
  }
}
