/** The bot (bonus/Bot.cpp), a client of the server: its output queue, and what it hears and
    answers across the wire. */
module Bots {
  import opened IrcText
  import opened Wire
  import opened Framing
  import opened Model
  import opened Soundness
  import opened Runs
  import opened RunTheorems
  import opened Poll

  // ----- Output queue -----------------------------------------------------------------------

  function Flat(lines: seq<string>): string { if lines == [] then "" else lines[0] + Flat(lines[1..]) }

  lemma {:induction false} FlatAppend(lines: seq<string>, line: string)
    ensures Flat(lines + [line]) == Flat(lines) + line
  {
    if lines == [] {
      assert lines + [line] == [line] && [line][1..] == [];
    } else {
      assert (lines + [line])[1..] == lines[1..] + [line];
      FlatAppend(lines[1..], line);
    }
  }

  lemma {:induction false} FlatFront(line: string, rest: seq<string>)
    ensures Flat([line] + rest) == line + Flat(rest)
  {
    assert ([line] + rest)[1..] == rest;
  }

  /** The front line loses `n` bytes, which are sent. */
  lemma {:induction false} FlatTaken(sent: string, line: string, rest: seq<string>, n: nat)
    requires n <= |line|
    ensures (sent + line[..n]) + Flat([line[n..]] + rest) == sent + Flat([line] + rest)
  {
    FlatFront(line, rest);
    FlatFront(line[n..], rest);
    CutInTwo(line, n);
    Regrouped(line[..n], line[n..], Flat(rest));
    Regrouped(sent, line[..n], line[n..] + Flat(rest));
  }

  /** All lines but the first are the last of those at the start. */
  predicate Behind(start: seq<string>, lines: seq<string>) {
    |lines| <= |start| && (lines != [] ==> lines[1..] == start[|start| - |lines| + 1..])
  }

  lemma {:induction false} BehindStill(start: seq<string>, before: seq<string>, after: seq<string>)
    requires Behind(start, before) && before != []
    requires after == before[1..] || (|after| == |before| && after[1..] == before[1..])
    ensures Behind(start, after)
  {
    if after == before[1..] && after != [] {
      assert start[|start| - |before| + 1..][1..] == start[|start| - |after| + 1..];
    }
  }

  lemma {:induction false} Longer(a: string, b: string, more: string)
    requires a <= b
    ensures a <= b + more
  {
  }

  class Outbox {
    var lines: seq<string>
    ghost var queued: string   // every byte enqueued so far
    ghost var sent: string     // every byte the socket has taken

    ghost predicate Valid()
      reads this
    {
      sent + Flat(lines) == queued
    }

    constructor ()
      ensures Valid() && lines == [] && queued == "" && sent == ""
    {
      lines, queued, sent := [], "", "";
    }

    method Enqueue(line: string)
      requires Valid()
      modifies this
      ensures Valid() && lines == old(lines) + [line] && queued == old(queued) + line && sent == old(sent)
    {
      FlatAppend(lines, line);
      lines := lines + [line];
      queued := queued + line;
    }

    /** `send` gives what the k-th call takes of the bytes offered. False is the exception thrown
        for a failed send. No byte is lost, repeated or reordered; the socket is offered lines
        until it takes only part of one. */
    method FlushOutput(send: (nat, nat) -> int) returns (ok: bool)
      requires Valid() && forall k: nat, n: nat :: send(k, n) <= n
      modifies this
      ensures Valid() && queued == old(queued) && old(sent) <= sent
      ensures |lines| <= |old(lines)| && (lines != [] ==> lines[1..] == old(lines)[|old(lines)| - |lines| + 1..])
      ensures ok && old(lines) != [] ==> |sent| > |old(sent)|
      ensures !ok ==> lines != [] && exists k: nat, n: nat :: send(k, n) <= 0
    {
      ghost var start := lines;
      var calls := 0;
      while lines != []
        invariant Valid() && queued == old(queued) && old(sent) <= sent
        invariant Behind(start, lines)
        invariant |lines| < |start| ==> |sent| > |old(sent)|
        decreases |lines|
      {
        var taken := send(calls, |lines[0]|);
        if taken <= 0 { return false; }
        calls := calls + 1;
        ghost var before, was := lines, sent;
        var done := SendFront(taken);
        Longer(old(sent), was, before[0][..taken]);
        BehindStill(start, before, lines);
        if !done { return true; }
      }
      return true;
    }

    /** The socket has taken `taken` bytes of the front line; true when none is left of it. */
    method SendFront(taken: nat) returns (done: bool)
      requires Valid() && lines != [] && 1 <= taken <= |lines[0]|
      modifies this
      ensures Valid() && queued == old(queued) && sent == old(sent) + old(lines[0])[..taken]
      ensures if done then lines == old(lines)[1..] else |lines| == |old(lines)| && lines[1..] == old(lines)[1..]
    {
      var line, rest := lines[0], lines[1..];
      assert lines == [line] + rest;
      FlatTaken(sent, line, rest, taken);
      sent := sent + line[..taken];
      line := line[taken..];
      lines := [line] + rest;
      assert lines[1..] == rest;
      if line != "" { return false; }
      FlatFront("", rest);
      lines := rest;
      return true;
    }
  }

  // ----- Hearing and answering --------------------------------------------------------------

  /** Where an answer to `msg` goes: back to the channel, or to the sender. */
  function AnswerTarget(msg: Message): string {
    var target := msg.Param(0);
    if target != "" && (target[0] == '#' || target[0] == '&') then target else SenderNick(msg.prefix)
  }

  /** A private message is answered to its sender, and to nobody else: the target the bot
      computes from the line it received is a nickname that only the sender holds. A channel
      message is answered on that channel. */
  lemma {:induction false} AnswerReachesSender(s: State, fd: int, line: string)
    requires Sound(s) && NoNewline(line)
    requires Parse(line).command in {"PRIVMSG", "NOTICE"} && Deliverable(s, fd, Parse(line))
    ensures var asked, target := Parse(line).Param(0), AnswerTarget(ParseBody(Body(RelayedLine(s, fd, Parse(line)))));
            if ToChannel(asked) then target == asked else Holders(s, target) == {fd}
  {
    var msg, prefix := Parse(line), FullPrefix(s.clients[fd]);
    RelayIsFaithful(s, fd, line);
    RegisteredNick(s, fd);
    if ValidNick(msg.Param(0)) { NickStart(msg.Param(0)); }
    AnswerComputed(Message(prefix, msg.command, [msg.Param(0), msg.Param(1)]), msg.Param(0));
  }

  lemma {:induction false} AnswerComputed(heard: Message, asked: string)
    requires |heard.params| == 2 && heard.params[0] == asked
    ensures AnswerTarget(heard) == if "#" <= asked || "&" <= asked then asked else SenderNick(heard.prefix)
  {
    assert heard.Param(0) == asked;
  }

  lemma {:induction false} RegisteredNick(s: State, fd: int)
    requires Sound(s) && fd in s.clients && s.clients[fd].registered
    ensures Holders(s, s.clients[fd].nick) == {fd}
  {
    var nick := s.clients[fd].nick;
    assert fd in Holders(s, nick);
    HolderUnique(s, nick, fd);
  }

  lemma {:induction false} NickStart(nick: string)
    requires ValidNick(nick)
    ensures nick != "" && nick[0] != '#' && nick[0] != '&'
  {
    assert nick[0] in nick;
  }

  lemma {:induction false} PrefixOf(whole: seq<string>, front: seq<string>, rest: seq<string>)
    requires whole == front + rest
    ensures front <= whole
  {
  }

  /** Whatever part of a client's stream has arrived, its line buffer holds the first of the
      messages addressed to it, in order, and nothing else. */
  lemma HeardInOrder(password: string, log: seq<Event>, s: State, conns: Conns, listenFd: int, p: seq<PollFd>, f: int,
                     arrived: string)
    requires Logged(password, log, s, conns) && Wired(listenFd, p, conns) && f in conns
    requires arrived <= conns[f].sent
    ensures Lines(arrived) <= Bodies(Addressed(Init(password), log, f))
  {
    var v := conns[f];
    var later := v.sent[|arrived|..] + v.send;
    assert v.sent + v.send == arrived + later;
    assert Lines(v.sent + v.send) == Bodies(Addressed(Init(password), log, f)) by {
      DeliveryEndToEnd(password, log, s, conns, listenFd, p, f);
    }
    SplitResumes(arrived, later);
    PrefixOf(Bodies(Addressed(Init(password), log, f)), Lines(arrived), Lines(Residue(arrived) + later));
  }
}
