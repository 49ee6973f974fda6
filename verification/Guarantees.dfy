/** The run theorems for two moments of the running server: `Logged` holds at both, and the
    history has only grown in between. */
module Guarantees {
  import opened Model
  import opened Soundness
  import opened Runs
  import opened RunTheorems
  import opened Poll
  import opened Passes

  /** A server state as its history knows it. */
  datatype Moment = Moment(log: seq<Event>, s: State, conns: Conns)
  {
    ghost predicate Of(password: string) { Logged(password, log, s, conns) }
  }

  /** The event loop goes through one pass: the history continues and every client is treated by
      the events reported for it. */
  ghost predicate Round(a: Moment, b: Moment, listenFd: int, os: Os) {
    a.log <= b.log && Passed(a.conns, b.conns, listenFd, os)
  }

  /** What happened between two moments. */
  function Since(a: Moment, b: Moment): seq<Event>
    requires a.log <= b.log
  {
    b.log[|a.log|..]
  }

  /** The later state is reached from the earlier one by a run. */
  lemma {:induction false} Between(password: string, a: Moment, b: Moment)
    requires a.Of(password) && b.Of(password) && a.log <= b.log
    ensures Sound(a.s) && ValidLog(a.s, Since(a, b)) && b.s == Exec(a.s, Since(a, b))
  {
    OpenLogged(password, a.log, a.s, a.conns);
    OpenLogged(password, b.log, b.s, b.conns);
    InitSound(password);
    RunSound(Init(password), a.log);
    assert b.log == a.log + Since(a, b);
    RunSplit(Init(password), a.log, Since(a, b));
  }

  /** A channel that has lost its last operator and exists in every state in between has the same
      modes and still no operator. */
  lemma {:induction false} FrozenBetween(password: string, a: Moment, b: Moment, k: string)
    requires a.Of(password) && b.Of(password) && a.log <= b.log
    requires k in a.s.channels && a.s.channels[k].ops == {} && Persists(a.s, Since(a, b), k)
    ensures k in b.s.channels && b.s.channels[k].ops == {} && b.s.channels[k].modes == a.s.channels[k].modes
  {
    Between(password, a, b);
    OperatorlessIsFrozen(a.s, Since(a, b), k);
  }

  /** While a limit stands, the channel has at most that many members or at most as many as before. */
  lemma {:induction false} LimitBetween(password: string, a: Moment, b: Moment, k: string, limit: int)
    requires a.Of(password) && b.Of(password) && a.log <= b.log
    requires limit >= 0 && LimitStands(a.s, Since(a, b), k, limit)
    ensures k in a.s.channels && k in b.s.channels
    ensures |b.s.channels[k].members| <= limit || |b.s.channels[k].members| <= |a.s.channels[k].members|
  {
    Between(password, a, b);
    LimitHolds(a.s, Since(a, b), k, limit);
  }

  /** A registered client that stayed connected is registered under the same username, real name
      and host. */
  lemma {:induction false} RegisteredBetween(password: string, a: Moment, b: Moment, f: int)
    requires a.Of(password) && b.Of(password) && a.log <= b.log
    requires f in a.s.clients && a.s.clients[f].registered && StaysConnected(Since(a, b), f)
    ensures f in b.s.clients
    ensures var c, d := a.s.clients[f], b.s.clients[f];
            d.registered && d.username == c.username && d.realname == c.realname && d.host == c.host
  {
    Between(password, a, b);
    RegistrationLasts(a.s, Since(a, b), f);
  }

  /** Entries through an invite-only door since then are covered by invitations open then or granted
      since. */
  lemma {:induction false} EntriesBetween(password: string, a: Moment, b: Moment, k: string)
    requires a.Of(password) && b.Of(password) && a.log <= b.log
    ensures InvitedEntries(a.s, Since(a, b), k) + |Invited(b.s, k)| <=
            InvitesGranted(a.s, Since(a, b), k) + |Invited(a.s, k)|
  {
    Between(password, a, b);
    EntriesNeedInvites(a.s, Since(a, b), k);
  }

  /** Every member of a channel of the running server came in by its own JOIN, through the gates or
      as the founder, and has been a member ever since. */
  lemma {:induction false} MembersCameIn(password: string, now: Moment, k: string, f: int) returns (i: nat)
    requires now.Of(password) && f in Members(now.s, k)
    ensures i < |now.log| && ComesIn(Exec(Init(password), now.log[..i]), now.log[i], k, f)
    ensures MemberSince(Init(password), now.log, k, f, i)
  {
    OpenLogged(password, now.log, now.s, now.conns);
    InitSound(password);
    i := AdmissionRun(Init(password), now.log, k, f);
  }

  /** In every state of the running server, the messages queued to a client contain one welcome
      if it is registered and none if it is not. */
  lemma {:induction false} WelcomedOnce(password: string, now: Moment, f: int)
    requires now.Of(password) && f in now.conns
    ensures WelcomeCount(now.conns[f].queued) == RegisteredCount(now.s, f)
  {
    OpenLogged(password, now.log, now.s, now.conns);
    InitSound(password);
    WelcomedIffRegistered(Init(password), now.log, f);
  }
}
