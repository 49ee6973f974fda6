/** The small relay server (bircd/exam06_miniserv/mini_serv.c): every line a client sends is
    passed on, with its number, to all the others, as are arrivals and departures. */
module MiniServ {
  import opened Wire
  import opened Framing
  import opened Modes
  import opened Sealing

  const SIZE := 65536

  // ----- What the clients are owed ----------------------------------------------------------

  /** A line is given without its newline. */
  datatype Event = Arrived(fd: int) | Said(fd: int, piece: string) | Left(fd: int)

  /** How many clients have arrived: the number of the next one. */
  function Arrivals(log: seq<Event>): nat {
    if log == [] then 0 else Arrivals(log[..|log| - 1]) + if log[|log| - 1].Arrived? then 1 else 0
  }

  function Clients(log: seq<Event>): set<int> {
    if log == [] then {}
    else
      var before, e := Clients(log[..|log| - 1]), log[|log| - 1];
      if e.Arrived? then before + {e.fd} else if e.Left? then before - {e.fd} else before
  }

  /** The number of the client on `fd`: how many arrived before it. */
  function Number(log: seq<Event>, fd: int): nat {
    if log == [] then 0
    else if log[|log| - 1] == Arrived(fd) then Arrivals(log[..|log| - 1])
    else Number(log[..|log| - 1], fd)
  }

  function ArrivalText(id: int): string { "server: client " + Decimal(id) + " just arrived\n" }

  function DepartureText(id: int): string { "server: client " + Decimal(id) + " just left\n" }

  function LineText(id: int, line: string): string { "client " + Decimal(id) + ": " + line }

  function Notice(log: seq<Event>, e: Event): string {
    if e.Arrived? then ArrivalText(Arrivals(log))
    else if e.Said? then LineText(Number(log, e.fd), e.piece + "\n")
    else DepartureText(Number(log, e.fd))
  }

  /** Everything the others caused since `fd` arrived, each notice once, in order. */
  function Owed(log: seq<Event>, fd: int): string {
    if log == [] then ""
    else
      var front, e := log[..|log| - 1], log[|log| - 1];
      if e.fd != fd then Owed(front, fd) + Notice(front, e)
      else if e.Said? then Owed(front, fd)
      else ""
  }

  /** The lines `fd` has sent since it arrived. */
  function SaidBy(log: seq<Event>, fd: int): seq<string> {
    if log == [] then []
    else
      var front, e := log[..|log| - 1], log[|log| - 1];
      if e.fd != fd then SaidBy(front, fd) else if e.Said? then SaidBy(front, fd) + [e.piece] else []
  }

  lemma {:induction false} LogStep(log: seq<Event>, e: Event, f: int)
    ensures Arrivals(log + [e]) == Arrivals(log) + (if e.Arrived? then 1 else 0)
    ensures Clients(log + [e]) ==
            if e.Arrived? then Clients(log) + {e.fd} else if e.Left? then Clients(log) - {e.fd} else Clients(log)
    ensures Number(log + [e], f) == if e == Arrived(f) then Arrivals(log) else Number(log, f)
    ensures Owed(log + [e], f) ==
            if e.fd != f then Owed(log, f) + Notice(log, e) else if e.Said? then Owed(log, f) else ""
    ensures SaidBy(log + [e], f) ==
            if e.fd != f then SaidBy(log, f) else if e.Said? then SaidBy(log, f) + [e.piece] else []
  {
    assert (log + [e])[..|log|] == log;
  }

  /** What an event adds to what every other client is owed: who arrived, who left, or the line with
      the number of its sender. */
  lemma {:induction false} OwedWording(log: seq<Event>, e: Event, f: int)
    requires f != e.fd
    ensures Owed(log + [e], f) == Owed(log, f) +
            match e
            case Arrived(_) => "server: client " + Decimal(Arrivals(log)) + " just arrived\n"
            case Left(fd) => "server: client " + Decimal(Number(log, fd)) + " just left\n"
            case Said(fd, piece) => "client " + Decimal(Number(log, fd)) + ": " + (piece + "\n")
  {
    LogStep(log, e, f);
  }

  /** Numbers are never used twice, even when descriptors are: every client present has a number
      below the next one, and no two clients share one. */
  lemma {:induction false} NumbersDistinct(log: seq<Event>, f: int, g: int)
    requires f in Clients(log)
    ensures Number(log, f) < Arrivals(log)
    ensures g in Clients(log) && g != f ==> Number(log, f) != Number(log, g)
  {
    var front, e := log[..|log| - 1], log[|log| - 1];
    if f in Clients(front) { NumbersDistinct(front, f, g); }
    if g in Clients(front) { NumbersDistinct(front, g, f); }
  }

  // ----- The invariant ----------------------------------------------------------------------

  function Str(b: Option<string>): string { if b.Some? then b.value else "" }

  datatype View = View(
    sock: int, active: set<int>, maxfd: int, nextId: int,
    ids: seq<int>, rbuf: seq<Option<string>>, wbuf: seq<Option<string>>,
    got: map<int, string>, sent: map<int, string>)   // bytes taken from and given to each socket

  /** Per client: its number, what it sent and what it is owed. */
  ghost predicate Serves(v: View, log: seq<Event>, f: int)
    requires |v.ids| == SIZE && |v.rbuf| == SIZE && |v.wbuf| == SIZE
  {
    0 <= f < SIZE && f <= v.maxfd && f in v.got && f in v.sent &&
    forall key: Key :: Turned(key, f) ==> Account(v, log, f)
  }

  ghost predicate Account(v: View, log: seq<Event>, f: int)
    requires |v.ids| == SIZE && |v.rbuf| == SIZE && |v.wbuf| == SIZE && 0 <= f < SIZE && f in v.got && f in v.sent
  {
    v.ids[f] == Number(log, f) &&
    v.sent[f] + Str(v.wbuf[f]) == Owed(log, f) &&
    Terminated(SaidBy(log, f)) + Str(v.rbuf[f]) == v.got[f] &&
    (forall p <- SaidBy(log, f) :: NoNewline(p)) &&
    (v.wbuf[f].Some? ==> v.wbuf[f].value != "")
  }

  ghost predicate Relays(v: View, log: seq<Event>, busy: set<int>)
    requires Sized(v)
  {
    v.nextId == Arrivals(log) &&
    (forall f <- Clients(log) :: Serves(v, log, f)) &&
    (forall f :: 0 <= f < SIZE && f !in Clients(log) ==> v.rbuf[f] == None && v.wbuf[f] == None) &&
    (forall f <- Clients(log) :: f !in busy && 0 <= f < SIZE ==> NoNewline(Str(v.rbuf[f])))
  }

  predicate Sized(v: View) {
    |v.ids| == |v.rbuf| == |v.wbuf| == SIZE && v.sock in v.active &&
    v.maxfd < SIZE && forall f <- v.active :: 0 <= f <= v.maxfd
  }

  /** The descriptors watched are the clients and the listening socket; each client is served,
      with no complete line left in a receive buffer, except perhaps on `busy`; a descriptor that
      is no client has no buffer. */
  ghost predicate Relaying(v: View, log: seq<Event>, busy: set<int>) {
    Sized(v) && (forall f :: f in Clients(log) <==> f in v.active && f != v.sock) &&
    forall key: Key :: Turned(key, log) ==> Relays(v, log, busy)
  }

  lemma OpenRelaying(v: View, log: seq<Event>, busy: set<int>)
    requires Relaying(v, log, busy)
    ensures Relays(v, log, busy)
    ensures forall f <- Clients(log) :: 0 <= f < SIZE && Serves(v, log, f)
  {
    assert Turned(Key, log);
  }

  /** The write buffers after `msg` has been appended for every client but `except`. */
  predicate Sent(before: seq<Option<string>>, after: seq<Option<string>>, active: set<int>, sock: int, except: int,
                 msg: string)
  {
    |after| == |before| &&
    forall f :: 0 <= f < |before| ==>
      after[f] == if f in active && f != sock && f != except then Some(Str(before[f]) + msg) else before[f]
  }

  /** `text` is the notice `e` calls for. */
  ghost predicate Announces(log: seq<Event>, e: Event, text: string) {
    forall key: Key :: Turned(key, text) ==> text == Notice(log, e) && text != ""
  }

  lemma {:induction false} NoticeTexts(v: View, log: seq<Event>, busy: set<int>, fd: int, piece: string)
    requires Relaying(v, log, busy)
    ensures Announces(log, Arrived(fd), ArrivalText(v.nextId))
    ensures fd in Clients(log) ==> Announces(log, Left(fd), DepartureText(v.ids[fd]))
    ensures fd in Clients(log) ==> Announces(log, Said(fd, piece), LineText(v.ids[fd], piece + "\n"))
  {
    OpenRelaying(v, log, busy);
    assert Turned(Key, fd);
  }

  /** A notice about `e` in every other client's buffer is exactly what `e` adds to what they are owed. */
  lemma {:induction false} NoticeServes(v: View, log: seq<Event>, e: Event, text: string, w: View, f: int)
    requires |v.ids| == SIZE && |v.rbuf| == SIZE && |v.wbuf| == SIZE && |w.ids| == SIZE && |w.rbuf| == SIZE &&
             |w.wbuf| == SIZE
    requires Serves(v, log, f) && e.fd != f
    requires Announces(log, e, text) && w.wbuf[f] == Some(Str(v.wbuf[f]) + text)
    requires w.ids[f] == v.ids[f] && w.rbuf[f] == v.rbuf[f] && f in w.got && f in w.sent &&
             w.got[f] == v.got[f] && w.sent[f] == v.sent[f]
    requires w.maxfd >= v.maxfd
    ensures Serves(w, log + [e], f)
  {
    LogStep(log, e, f);
    assert Turned(Key, text) && Turned(Key, f);
    var now := log + [e];
    Regrouped(v.sent[f], Str(v.wbuf[f]), text);
    assert w.sent[f] + Str(w.wbuf[f]) == Owed(now, f);
    assert SaidBy(now, f) == SaidBy(log, f);
    assert w.ids[f] == Number(now, f);
  }

  lemma {:induction false} OthersServed(v: View, log: seq<Event>, busy: set<int>, e: Event, text: string, w: View)
    requires Relaying(v, log, busy) && busy <= {e.fd} && Announces(log, e, text) && Sized(w) && w.maxfd >= v.maxfd
    requires forall f <- Clients(log) :: f != e.fd ==>
               w.wbuf[f] == Some(Str(v.wbuf[f]) + text) && w.ids[f] == v.ids[f] && w.rbuf[f] == v.rbuf[f] &&
               (f in v.got && f in v.sent ==>
                  f in w.got && f in w.sent && w.got[f] == v.got[f] && w.sent[f] == v.sent[f])
    requires forall f :: 0 <= f < SIZE && f !in Clients(log) && f != e.fd ==>
               w.rbuf[f] == v.rbuf[f] && w.wbuf[f] == v.wbuf[f]
    ensures forall f <- Clients(log) :: f != e.fd ==> Serves(w, log + [e], f) && NoNewline(Str(w.rbuf[f]))
    ensures forall f :: 0 <= f < SIZE && f !in Clients(log) && f != e.fd ==> w.rbuf[f] == None && w.wbuf[f] == None
  {
    OpenRelaying(v, log, busy);
    forall f | f in Clients(log) && f != e.fd ensures Serves(w, log + [e], f) && NoNewline(Str(w.rbuf[f])) {
      NoticeServes(v, log, e, text, w, f);
    }
  }

  /** The others are served, and the client of the event is served or gone. */
  lemma {:induction false} RelaysAgain(log: seq<Event>, e: Event, w: View, busy: set<int>)
    requires Sized(w) && 0 <= e.fd < SIZE && w.nextId == Arrivals(log) + if e.Arrived? then 1 else 0
    requires forall f :: f in Clients(log + [e]) <==> f in w.active && f != w.sock
    requires forall f <- Clients(log) :: f != e.fd ==> Serves(w, log + [e], f) && NoNewline(Str(w.rbuf[f]))
    requires forall f :: 0 <= f < SIZE && f !in Clients(log) && f != e.fd ==> w.rbuf[f] == None && w.wbuf[f] == None
    requires if e.fd in Clients(log + [e]) then
               Serves(w, log + [e], e.fd) && (e.fd !in busy ==> NoNewline(Str(w.rbuf[e.fd])))
             else w.rbuf[e.fd] == None && w.wbuf[e.fd] == None
    ensures Relaying(w, log + [e], busy)
  {
    LogStep(log, e, e.fd);
  }

  lemma {:induction false} ArrivalRelays(v: View, log: seq<Event>, fd: int, text: string, w: View)
    requires Relaying(v, log, {}) && 0 <= fd < SIZE && fd !in v.active
    requires w == v.(active := v.active + {fd}, maxfd := if v.maxfd < fd then fd else v.maxfd, nextId := v.nextId + 1,
                     ids := v.ids[fd := v.nextId], wbuf := w.wbuf, got := v.got[fd := ""], sent := v.sent[fd := ""])
    requires Sent(v.wbuf, w.wbuf, w.active, w.sock, fd, text) && Announces(log, Arrived(fd), text)
    ensures Relaying(w, log + [Arrived(fd)], {})
  {
    var e := Arrived(fd);
    assert v.nextId == Arrivals(log) && v.rbuf[fd] == None && v.wbuf[fd] == None by { OpenRelaying(v, log, {}); }
    NewcomerServed(log, fd, w);
    LogStep(log, e, fd);
    OthersServed(v, log, {}, e, text, w);
    RelaysAgain(log, e, w, {});
  }

  /** Nothing has been said, owed or sent yet. */
  lemma {:induction false} NewcomerServed(log: seq<Event>, fd: int, w: View)
    requires Sized(w) && 0 <= fd <= w.maxfd && fd in w.got && fd in w.sent
    requires w.ids[fd] == Arrivals(log) && w.got[fd] == w.sent[fd] == "" && w.rbuf[fd] == w.wbuf[fd] == None
    ensures Serves(w, log + [Arrived(fd)], fd)
  {
    LogStep(log, Arrived(fd), fd);
  }

  lemma {:induction false} DepartureRelays(v: View, log: seq<Event>, fd: int, text: string, w: View)
    requires Relaying(v, log, {}) && fd in Clients(log)
    requires w == v.(active := v.active - {fd}, rbuf := v.rbuf[fd := None], wbuf := w.wbuf)
    requires Sent(v.wbuf[fd := None], w.wbuf, w.active, w.sock, fd, text) && Announces(log, Left(fd), text)
    ensures Relaying(w, log + [Left(fd)], {})
  {
    var e := Left(fd);
    LogStep(log, e, fd);
    assert v.nextId == Arrivals(log) by { OpenRelaying(v, log, {}); }
    OthersServed(v, log, {}, e, text, w);
    RelaysAgain(log, e, w, {});
  }

  lemma {:induction false} SpeakerServed(v: View, log: seq<Event>, e: Event, w: View, rest: string)
    requires Sized(v) && Sized(w) && e.Said? && Serves(v, log, e.fd) && NoNewline(e.piece)
    requires v.rbuf[e.fd] == Some(e.piece + "\n" + rest) && w.rbuf[e.fd] == Some(rest)
    requires w.wbuf[e.fd] == v.wbuf[e.fd] && w.ids[e.fd] == v.ids[e.fd] && w.maxfd == v.maxfd
    requires w.got == v.got && w.sent == v.sent
    ensures Serves(w, log + [e], e.fd)
  {
    LogStep(log, e, e.fd);
    assert Turned(Key, e.fd);
    SaidMore(SaidBy(log, e.fd), e.piece, rest);
  }

  lemma {:induction false} LineRelays(v: View, log: seq<Event>, fd: int, text: string, w: View, piece: string,
                                      rest: string)
    requires Relaying(v, log, {fd}) && fd in Clients(log)
    requires v.rbuf[fd] == Some(piece + "\n" + rest) && NoNewline(piece)
    requires w == v.(rbuf := v.rbuf[fd := Some(rest)], wbuf := w.wbuf)
    requires Sent(v.wbuf, w.wbuf, w.active, w.sock, fd, text) && Announces(log, Said(fd, piece), text)
    ensures Relaying(w, log + [Said(fd, piece)], {fd})
  {
    var e := Said(fd, piece);
    LogStep(log, e, fd);
    assert v.nextId == Arrivals(log) by { OpenRelaying(v, log, {fd}); }
    assert Serves(w, log + [e], fd) by {
      OpenRelaying(v, log, {fd});
      SpeakerServed(v, log, e, w, rest);
    }
    OthersServed(v, log, {fd}, e, text, w);
    RelaysAgain(log, e, w, {fd});
  }

  lemma {:induction false} ReceiptRelays(v: View, log: seq<Event>, fd: int, w: View, add: string)
    requires Relaying(v, log, {}) && fd in Clients(log) && fd in v.got
    requires w == v.(rbuf := v.rbuf[fd := Some(Str(v.rbuf[fd]) + add)], got := v.got[fd := v.got[fd] + add])
    ensures Relaying(w, log, {fd})
  {
    OpenRelaying(v, log, {});
    Regrouped(Terminated(SaidBy(log, fd)), Str(v.rbuf[fd]), add);
    assert Serves(w, log, fd) by { assert Turned(Key, fd); }
    forall f | f in Clients(log) && f != fd ensures Serves(w, log, f) {
      SameAccount(v, log, w, f);
    }
  }

  lemma {:induction false} SameAccount(v: View, log: seq<Event>, w: View, f: int)
    requires |v.ids| == |v.rbuf| == |v.wbuf| == SIZE && |w.ids| == |w.rbuf| == |w.wbuf| == SIZE
    requires Serves(v, log, f) && w.maxfd == v.maxfd && f in w.got && f in w.sent
    requires w.ids[f] == v.ids[f] && w.rbuf[f] == v.rbuf[f] && w.wbuf[f] == v.wbuf[f] && w.got[f] == v.got[f] &&
             w.sent[f] == v.sent[f]
    ensures Serves(w, log, f)
  {
    assert Turned(Key, f);
  }

  /** Whatever part the socket takes moves from the buffer to what has been sent. */
  lemma {:induction false} FlushRelays(v: View, log: seq<Event>, fd: int, w: View, n: nat)
    requires Relaying(v, log, {}) && fd in Clients(log) && fd in v.sent && v.wbuf[fd].Some? && n <= |v.wbuf[fd].value|
    requires var text := v.wbuf[fd].value;
             w == v.(wbuf := v.wbuf[fd := if n == |text| then None else Some(text[n..])],
                     sent := v.sent[fd := v.sent[fd] + text[..n]])
    ensures Relaying(w, log, {})
  {
    OpenRelaying(v, log, {});
    FlushServes(v, log, fd, w, n);
    forall f | f in Clients(log) && f != fd ensures Serves(w, log, f) {
      SameAccount(v, log, w, f);
    }
  }

  lemma {:induction false} FlushServes(v: View, log: seq<Event>, fd: int, w: View, n: nat)
    requires Sized(v) && Serves(v, log, fd) && v.wbuf[fd].Some? && n <= |v.wbuf[fd].value|
    requires var text := v.wbuf[fd].value;
             w == v.(wbuf := v.wbuf[fd := if n == |text| then None else Some(text[n..])],
                     sent := v.sent[fd := v.sent[fd] + text[..n]])
    ensures Serves(w, log, fd)
  {
    assert Turned(Key, fd);
    var text := v.wbuf[fd].value;
    assert text == text[..n] + text[n..];
    Regrouped(v.sent[fd], text[..n], text[n..]);
  }

  lemma {:induction false} NothingLeft(v: View, log: seq<Event>, fd: int)
    requires Relaying(v, log, {fd}) && fd in Clients(log) && NoNewline(Str(v.rbuf[fd]))
    ensures Relaying(v, log, {})
  {
    OpenRelaying(v, log, {fd});
  }

  lemma {:induction false} SocketHasNoBuffer(v: View, log: seq<Event>)
    requires Relaying(v, log, {})
    ensures v.wbuf[v.sock] == None
  {
    OpenRelaying(v, log, {});
  }

  /** A descriptor that is not in use has no buffer. */
  lemma {:induction false} NoBuffer(v: View, log: seq<Event>, fd: int)
    requires Relaying(v, log, {}) && 0 <= fd < SIZE && fd !in v.active
    ensures v.wbuf[fd] == None
  {
    OpenRelaying(v, log, {});
  }

  /** A buffer that is present is not empty. */
  lemma {:induction false} NoEmptyBuffer(v: View, log: seq<Event>)
    requires Relaying(v, log, {})
    ensures forall f <- v.active :: f != v.sock && v.wbuf[f].Some? ==> v.wbuf[f].value != ""
  {
    OpenRelaying(v, log, {});
    forall f | f in v.active && f != v.sock && v.wbuf[f].Some? ensures v.wbuf[f].value != "" {
      assert Serves(v, log, f) && Turned(Key, f);
    }
  }

  lemma {:induction false} SaidMore(pieces: seq<string>, piece: string, rest: string)
    ensures Terminated(pieces + [piece]) + rest == Terminated(pieces) + (piece + "\n" + rest)
  {
    TerminatedConcat(pieces, [piece]);
    TerminatedCons(piece, []);
    assert [piece] + [] == [piece];
  }

  /** The relay's promise. What a client was sent and what waits for it are together the notices
      the others caused since it arrived; and the lines it caused are exactly the lines of the
      bytes it sent, however these were cut into reads, with the unfinished rest still waiting. */
  lemma {:induction false} Conservation(v: View, log: seq<Event>, f: int)
    requires Relaying(v, log, {}) && f in Clients(log)
    ensures f in v.got && f in v.sent
    ensures v.sent[f] + Str(v.wbuf[f]) == Owed(log, f)
    ensures SaidBy(log, f) == Pieces(v.got[f]) && Str(v.rbuf[f]) == Residue(v.got[f])
    ensures v.ids[f] == Number(log, f)
  {
    OpenRelaying(v, log, {});
    assert Turned(Key, f);
    SplitUnique(SaidBy(log, f), Str(v.rbuf[f]));
  }

  // ----- One round, on values ---------------------------------------------------------------

  /** What the system calls of one round give: which descriptors select finds ready, what accept
      returns (negative for a failure) when `open` are in use, what recv gives (None for a
      failure or the end of the stream) and how much of `len` bytes send takes. */
  datatype Os = Os(
    readable: set<int>, writable: set<int>, accept: set<int> -> int, recv: int -> Option<string>,
    send: (int, nat) -> int)

  ghost predicate Lawful(os: Os) {
    (forall open: set<int> :: os.accept(open) < SIZE && os.accept(open) !in open) &&
    (forall fd: int, len: nat :: os.send(fd, len) <= len)
  }

  /** The traffic of one descriptor: bytes read, bytes sent and bytes waiting to be sent. */
  datatype Io = Io(got: string, sent: string, waiting: string)

  function IoOf(v: View, f: int): Io {
    Io(if f in v.got then v.got[f] else "", if f in v.sent then v.sent[f] else "",
       if 0 <= f < |v.wbuf| then Str(v.wbuf[f]) else "")
  }

  const NEW_IO := Io("", "", "")

  /** At most more is waiting: neither read from nor written to. */
  predicate Untouched(a: Io, b: Io) { b.got == a.got && b.sent == a.sent && a.waiting <= b.waiting }

  function Whole(n: int): nat { if n < 0 then 0 else n }

  /** `pending`, which includes what was waiting before, was offered once and `n` bytes of it were
      taken; the rest is still waiting. */
  predicate Offered(a: Io, b: Io, pending: string, n: int) {
    n <= |pending| && a.waiting <= pending &&
    b.sent == a.sent + pending[..Whole(n)] && pending[Whole(n)..] <= b.waiting
  }

  ghost predicate Flushed(a: Io, b: Io, f: int, os: Os) {
    exists pending: string :: Offered(a, b, pending, os.send(f, |pending|))
  }

  function Received(f: int, readable: bool, os: Os): string {
    if readable && os.recv(f).Some? then CString(os.recv(f).value) else ""
  }

  /** A client that stays has been read from once if it was readable, and flushed once if it was
      writable; without the event, nothing was read or sent. */
  ghost predicate Served(a: Io, b: Io, f: int, readable: bool, writable: bool, os: Os) {
    b.got == a.got + Received(f, readable, os) &&
    if writable then Flushed(a, b, f, os) else b.sent == a.sent && a.waiting <= b.waiting
  }

  lemma {:induction false} PrefixThen(a: string, b: string, c: string)
    requires a <= b && b <= c
    ensures a <= c
  {
    assert c[..|a|] == b[..|a|];
  }

  lemma {:induction false} UntouchedThen(a: Io, b: Io, c: Io)
    requires Untouched(a, b) && Untouched(b, c)
    ensures Untouched(a, c)
  {
    PrefixThen(a.waiting, b.waiting, c.waiting);
  }

  lemma {:induction false} ServedLater(a: Io, b: Io, c: Io, d: Io, f: int, readable: bool, writable: bool, os: Os)
    requires Untouched(a, b) && Served(b, c, f, readable, writable, os) && Untouched(c, d)
    ensures Served(a, d, f, readable, writable, os)
  {
    if writable {
      var pending: string :| Offered(b, c, pending, os.send(f, |pending|));
      PrefixThen(a.waiting, b.waiting, pending);
      PrefixThen(pending[Whole(os.send(f, |pending|))..], c.waiting, d.waiting);
      assert Offered(a, d, pending, os.send(f, |pending|));
    } else {
      PrefixThen(a.waiting, b.waiting, c.waiting);
      PrefixThen(a.waiting, c.waiting, d.waiting);
    }
  }

  /** Everybody but `fd` is untouched. */
  ghost predicate Around(v: View, w: View, fd: int) {
    forall key: Key :: Turned(key, fd) ==> forall f: int :: f != fd ==> Untouched(IoOf(v, f), IoOf(w, f))
  }

  lemma {:induction false} AroundAt(v: View, w: View, fd: int, f: int)
    requires Around(v, w, fd) && f != fd
    ensures Untouched(IoOf(v, f), IoOf(w, f))
  {
    assert Turned(Key, fd);
  }

  lemma {:induction false} AroundThen(u: View, v: View, w: View, fd: int)
    requires Around(u, v, fd) && Around(v, w, fd)
    ensures Around(u, w, fd)
  {
    forall f: int | f != fd ensures Untouched(IoOf(u, f), IoOf(w, f)) {
      AroundAt(u, v, fd, f);
      AroundAt(v, w, fd, f);
      UntouchedThen(IoOf(u, f), IoOf(v, f), IoOf(w, f));
    }
  }

  lemma {:induction false} SentAround(v: View, w: View, before: seq<Option<string>>, fd: int, except: int, msg: string)
    requires Sent(before, w.wbuf, w.active, w.sock, except, msg)
    requires |v.wbuf| == |before| && forall f :: 0 <= f < |before| && f != fd ==> before[f] == v.wbuf[f]
    requires forall f: int :: f != fd ==> IoOf(w, f).got == IoOf(v, f).got && IoOf(w, f).sent == IoOf(v, f).sent
    ensures Around(v, w, fd)
  {
  }

  lemma {:induction false} ArrivalAround(v: View, log: seq<Event>, fd: int, text: string, w: View)
    requires Relaying(v, log, {}) && 0 <= fd < SIZE && fd !in v.active
    requires w.got == v.got[fd := ""] && w.sent == v.sent[fd := ""]
    requires Sent(v.wbuf, w.wbuf, w.active, w.sock, fd, text)
    ensures Around(v, w, fd) && IoOf(w, fd) == NEW_IO
  {
    NoBuffer(v, log, fd);
    SentAround(v, w, v.wbuf, fd, fd, text);
  }

  lemma {:induction false} AroundReceived(v: View, w: View, fd: int)
    requires w.wbuf == v.wbuf && w.sent == v.sent
    requires w.got == v.got || (fd in w.got && w.got == v.got[fd := w.got[fd]])
    ensures Around(v, w, fd)
  {
  }

  predicate Only(fd: int, events: seq<Event>) { forall e <- events :: e.Said? && e.fd == fd }

  lemma {:induction false} OnlyMore(fd: int, story: seq<Event>, log: seq<Event>, piece: string)
    requires story <= log && Only(fd, log[|story|..])
    ensures story <= log + [Said(fd, piece)] && Only(fd, (log + [Said(fd, piece)])[|story|..])
  {
    assert (log + [Said(fd, piece)])[|story|..] == log[|story|..] + [Said(fd, piece)];
  }

  // ----- What a round does ------------------------------------------------------------------

  /** A state of the relay with its history. */
  datatype Moment = Moment(log: seq<Event>, v: View)
  {
    ghost predicate Ok() { Relaying(v, log, {}) }
  }

  /** A client that is found gone: select reports it, but recv fails or ends the stream. */
  predicate Leaves(v: View, os: Os, f: int) {
    f in v.active && f != v.sock && f in os.readable && os.recv(f) == None
  }

  /** Those among the descriptors below `fd`. */
  function Leavers(v: View, os: Os, fd: int): set<int> { set f | f in v.active && f < fd && Leaves(v, os, f) }

  /** The client accepted when the descriptors below `fd` have been visited: what accept returns if
      the listening socket is readable, given the descriptors then in use. */
  function Newcomers(v: View, os: Os, fd: int): set<int> {
    var connfd := os.accept(v.active - Leavers(v, os, v.sock));
    if v.sock < fd && v.sock in os.readable && connfd >= 0 then {connfd} else {}
  }

  predicate Writes(v: View, os: Os, f: int) { f in os.writable && IoOf(v, f).waiting != "" }

  /** What a round does to a client: if it is found gone it is sent nothing more; otherwise it is
      read from if readable and flushed if writable and it had output at the start. */
  ghost predicate Outcome(v: View, w: View, os: Os, f: int) {
    if Leaves(v, os, f) then f !in w.active ==> IoOf(w, f).sent == IoOf(v, f).sent
    else f in w.active && Served(IoOf(v, f), IoOf(w, f), f, f in os.readable, Writes(v, os, f), os)
  }

  /** What may happen in a round: the accepted client arrives, the clients found gone leave, and
      the readable ones speak. */
  ghost predicate Caused(v: View, os: Os, fd: int, e: Event) {
    match e
    case Arrived(f) => f in Newcomers(v, os, fd)
    case Left(f) => f in Leavers(v, os, fd)
    case Said(f, _) => f in v.active && f != v.sock && f < fd && f in os.readable && !Leaves(v, os, f)
  }

  ghost predicate Tells(a: Moment, b: Moment, os: Os, fd: int) {
    a.log <= b.log && (forall e <- b.log[|a.log|..] :: Caused(a.v, os, fd, e)) &&
    forall f <- Leavers(a.v, os, fd) :: Left(f) in b.log[|a.log|..]
  }

  /** One round, from `a` to `b`, as far as the descriptors below `fd` are concerned; those still to
      be visited are untouched. */
  ghost predicate Visiting(a: Moment, b: Moment, os: Os, fd: int) {
    forall key: Key :: Turned(key, fd) ==>
      b.v.sock == a.v.sock &&
      b.v.active == a.v.active - Leavers(a.v, os, fd) + Newcomers(a.v, os, fd) &&
      (forall f <- a.v.active :: f != a.v.sock && f < fd ==> Outcome(a.v, b.v, os, f)) &&
      (forall f <- a.v.active :: f != a.v.sock && fd <= f ==> Untouched(IoOf(a.v, f), IoOf(b.v, f))) &&
      (forall f <- Newcomers(a.v, os, fd) :: Untouched(NEW_IO, IoOf(b.v, f))) &&
      Tells(a, b, os, fd)
  }

  /** One whole round: the clients at the end are those of the start without the ones found gone,
      and the accepted one, with whom nothing has been exchanged yet; to each client happened
      exactly what its readiness calls for; and nothing else happened. */
  ghost predicate Passed(a: Moment, b: Moment, os: Os) {
    b.v.sock == a.v.sock &&
    b.v.active == a.v.active - Leavers(a.v, os, SIZE) + Newcomers(a.v, os, SIZE) &&
    (forall f <- a.v.active :: f != a.v.sock ==> Outcome(a.v, b.v, os, f)) &&
    (forall f <- Newcomers(a.v, os, SIZE) :: Untouched(NEW_IO, IoOf(b.v, f))) &&
    Tells(a, b, os, SIZE)
  }

  /** One visit. Only `fd` and an accepted client are touched. */
  ghost predicate Turn(b: Moment, c: Moment, fd: int, readable: bool, writable: bool, os: Os) {
    b.log <= c.log && c.v.sock == b.v.sock &&
    if fd == b.v.sock then
      if readable && os.accept(b.v.active) >= 0 then
        var connfd := os.accept(b.v.active);
        c.v.active == b.v.active + {connfd} && Around(b.v, c.v, connfd) && IoOf(c.v, connfd) == NEW_IO &&
        c.log == b.log + [Arrived(connfd)]
      else c == b
    else if readable && os.recv(fd) == None then
      c.v.active == b.v.active - {fd} && Around(b.v, c.v, fd) && IoOf(c.v, fd).sent == IoOf(b.v, fd).sent &&
      c.log == b.log + [Left(fd)]
    else
      c.v.active == b.v.active && Around(b.v, c.v, fd) &&
      Served(IoOf(b.v, fd), IoOf(c.v, fd), fd, readable, writable, os) &&
      if readable then Only(fd, c.log[|b.log|..]) else c.log == b.log
  }

  /** A visit to a client is a read, then a flush of what is waiting. */
  lemma {:induction false} ReadAndFlushed(b: Moment, m: Moment, c: Moment, fd: int, readable: bool, writable: bool,
                                          os: Os)
    requires fd != b.v.sock && c.v.sock == b.v.sock && Around(b.v, m.v, fd) && c.log == m.log
    requires os.send(fd, |IoOf(m.v, fd).waiting|) <= |IoOf(m.v, fd).waiting|
    requires if readable && os.recv(fd) == None then
               m.v.active == b.v.active - {fd} && m.log == b.log + [Left(fd)] &&
               IoOf(m.v, fd).sent == IoOf(b.v, fd).sent && c == m
             else
               m.v.active == b.v.active == c.v.active && b.log <= m.log &&
               (if readable then Only(fd, m.log[|b.log|..]) else m.log == b.log) &&
               ReadFrom(IoOf(b.v, fd), IoOf(m.v, fd), Received(fd, readable, os)) &&
               if writable then
                 Around(m.v, c.v, fd) &&
                 Sends(IoOf(m.v, fd), IoOf(c.v, fd), os.send(fd, |IoOf(m.v, fd).waiting|))
               else c == m
    ensures Turn(b, c, fd, readable, writable, os)
  {
    if !(readable && os.recv(fd) == None) && writable {
      AroundThen(b.v, m.v, c.v, fd);
      var pending := IoOf(m.v, fd).waiting;
      assert Offered(IoOf(b.v, fd), IoOf(c.v, fd), pending, os.send(fd, |pending|));
    }
  }

  predicate ReadFrom(a: Io, b: Io, chunk: string) { b == a.(got := a.got + chunk) }

  predicate Sends(a: Io, b: Io, n: int)
    requires n <= |a.waiting|
  {
    b == a.(sent := a.sent + a.waiting[..Whole(n)], waiting := a.waiting[Whole(n)..])
  }

  lemma {:induction false} VisitingStart(a: Moment, os: Os)
    requires a.Ok()
    ensures Visiting(a, a, os, 0)
  {
    assert Leavers(a.v, os, 0) == {} && Newcomers(a.v, os, 0) == {};
  }

  /** A client still to be visited is as it was, but for more output waiting. */
  lemma {:induction false} StillToVisit(a: Moment, b: Moment, os: Os, fd: int)
    requires Visiting(a, b, os, fd) && fd in a.v.active && fd != a.v.sock
    ensures fd in b.v.active && Untouched(IoOf(a.v, fd), IoOf(b.v, fd))
  {
    assert Turned(Key, fd);
  }

  lemma {:induction false} StillThere(a: Moment, b: Moment, os: Os, fd: int)
    requires Visiting(a, b, os, fd) && b.Ok()
    ensures b.v.sock == a.v.sock
    ensures fd in a.v.active ==> fd in b.v.active && (fd != a.v.sock ==> Untouched(IoOf(a.v, fd), IoOf(b.v, fd)))
  {
    assert Turned(Key, fd);
    if fd in a.v.active && fd != a.v.sock { StillToVisit(a, b, os, fd); }
  }

  lemma {:induction false} SocketToVisit(a: Moment, b: Moment, os: Os)
    requires Visiting(a, b, os, a.v.sock) && a.v.sock in a.v.active
    ensures b.v.sock == a.v.sock && b.v.active == a.v.active - Leavers(a.v, os, a.v.sock)
  {
    assert Turned(Key, a.v.sock);
  }

  lemma {:induction false} VisitStep(a: Moment, b: Moment, c: Moment, os: Os, fd: int)
    requires a.Ok() && Lawful(os) && Visiting(a, b, os, fd)
    requires Turn(b, c, fd, fd in a.v.active && fd in os.readable,
                  fd in a.v.active && fd != a.v.sock && Writes(a.v, os, fd), os)
    ensures Visiting(a, c, os, fd + 1)
  {
    assert Turned(Key, fd);
    if fd == a.v.sock {
      SocketVisited(a, b, c, os);
    } else if Leaves(a.v, os, fd) {
      LeaverVisited(a, b, c, os, fd);
    } else {
      OtherVisited(a, b, c, os, fd);
    }
  }

  /** The clients around `x` after a visit that touched nobody else. */
  lemma {:induction false} AroundVisited(a: Moment, b: Moment, c: Moment, os: Os, fd: int, x: int)
    requires Visiting(a, b, os, fd) && Around(b.v, c.v, x) && b.v.active - {x} <= c.v.active
    ensures forall f <- a.v.active :: f != a.v.sock && f != x && f < fd ==> Outcome(a.v, c.v, os, f)
    ensures forall f <- a.v.active :: f != a.v.sock && f != x && fd <= f ==> Untouched(IoOf(a.v, f), IoOf(c.v, f))
    ensures forall f <- Newcomers(a.v, os, fd) :: f != x ==> Untouched(NEW_IO, IoOf(c.v, f))
  {
    assert Turned(Key, fd);
    forall f | f in a.v.active && f != a.v.sock && f != x && f < fd ensures Outcome(a.v, c.v, os, f) {
      AroundAt(b.v, c.v, x, f);
      OutcomeStays(a.v, b.v, c.v, os, f);
    }
    forall f | f in a.v.active && f != a.v.sock && f != x && fd <= f
      ensures Untouched(IoOf(a.v, f), IoOf(c.v, f))
    {
      AroundAt(b.v, c.v, x, f);
      UntouchedThen(IoOf(a.v, f), IoOf(b.v, f), IoOf(c.v, f));
    }
    forall f | f in Newcomers(a.v, os, fd) && f != x ensures Untouched(NEW_IO, IoOf(c.v, f)) {
      AroundAt(b.v, c.v, x, f);
      UntouchedThen(NEW_IO, IoOf(b.v, f), IoOf(c.v, f));
    }
  }

  lemma {:induction false} OutcomeStays(u: View, v: View, w: View, os: Os, f: int)
    requires Outcome(u, v, os, f) && Untouched(IoOf(v, f), IoOf(w, f)) && (f in v.active ==> f in w.active)
    ensures Outcome(u, w, os, f)
  {
    if !Leaves(u, os, f) {
      assert Untouched(IoOf(u, f), IoOf(u, f));
      ServedLater(IoOf(u, f), IoOf(u, f), IoOf(v, f), IoOf(w, f), f, f in os.readable, Writes(u, os, f), os);
    }
  }

  lemma {:induction false} SocketVisited(a: Moment, b: Moment, c: Moment, os: Os)
    requires a.Ok() && Lawful(os) && Visiting(a, b, os, a.v.sock)
    requires Turn(b, c, a.v.sock, a.v.sock in os.readable, false, os)
    ensures Visiting(a, c, os, a.v.sock + 1)
  {
    var sock := a.v.sock;
    SocketToVisit(a, b, os);
    assert Turned(Key, sock);
    assert Leavers(a.v, os, sock + 1) == Leavers(a.v, os, sock);
    assert Newcomers(a.v, os, sock) == {};
    var connfd := os.accept(b.v.active);
    if sock in os.readable && connfd >= 0 {
      assert Newcomers(a.v, os, sock + 1) == {connfd};
      assert connfd !in b.v.active;
      AroundVisited(a, b, c, os, sock, connfd);
      if connfd in a.v.active { assert Leaves(a.v, os, connfd) && connfd < sock; }
      TellsMore(a, b, c, os, sock);
    } else {
      assert Newcomers(a.v, os, sock + 1) == {};
      TellsMore(a, b, c, os, sock);
    }
  }

  lemma {:induction false} LeaverVisited(a: Moment, b: Moment, c: Moment, os: Os, fd: int)
    requires a.Ok() && Lawful(os) && Visiting(a, b, os, fd) && Leaves(a.v, os, fd)
    requires Turn(b, c, fd, true, Writes(a.v, os, fd), os)
    ensures Visiting(a, c, os, fd + 1)
  {
    StillToVisit(a, b, os, fd);
    assert Turned(Key, fd);
    assert Leavers(a.v, os, fd + 1) == Leavers(a.v, os, fd) + {fd};
    SameNewcomers(a, os, fd);
    AroundVisited(a, b, c, os, fd, fd);
    TellsMore(a, b, c, os, fd);
  }

  lemma {:induction false} OtherVisited(a: Moment, b: Moment, c: Moment, os: Os, fd: int)
    requires a.Ok() && Lawful(os) && Visiting(a, b, os, fd) && fd != a.v.sock && !Leaves(a.v, os, fd)
    requires Turn(b, c, fd, fd in a.v.active && fd in os.readable, fd in a.v.active && Writes(a.v, os, fd), os)
    ensures Visiting(a, c, os, fd + 1)
  {
    assert Turned(Key, fd);
    assert Leavers(a.v, os, fd + 1) == Leavers(a.v, os, fd);
    SameNewcomers(a, os, fd);
    AroundVisited(a, b, c, os, fd, fd);
    TellsMore(a, b, c, os, fd);
    if fd in a.v.active {
      StillToVisit(a, b, os, fd);
      assert Untouched(IoOf(c.v, fd), IoOf(c.v, fd));
      ServedLater(IoOf(a.v, fd), IoOf(b.v, fd), IoOf(c.v, fd), IoOf(c.v, fd), fd, fd in os.readable,
        Writes(a.v, os, fd), os);
    } else if fd in Newcomers(a.v, os, fd) {
      UntouchedThen(NEW_IO, IoOf(b.v, fd), IoOf(c.v, fd));
    }
  }

  /** Past the listening socket, the newcomer is known and is no client of the start still to come. */
  lemma {:induction false} SameNewcomers(a: Moment, os: Os, fd: int)
    requires a.Ok() && Lawful(os) && fd != a.v.sock
    ensures Newcomers(a.v, os, fd + 1) == Newcomers(a.v, os, fd)
    ensures fd in a.v.active ==> fd !in Newcomers(a.v, os, fd)
  {
  }

  /** The new events of one visit. */
  lemma {:induction false} TurnTells(a: Moment, b: Moment, c: Moment, os: Os, fd: int)
    requires a.Ok() && Visiting(a, b, os, fd) && (fd == a.v.sock ==> b.v.active == a.v.active - Leavers(a.v, os, fd))
    requires Turn(b, c, fd, fd in a.v.active && fd in os.readable,
                  fd in a.v.active && fd != a.v.sock && Writes(a.v, os, fd), os)
    ensures b.log <= c.log && forall e <- c.log[|b.log|..] :: Caused(a.v, os, fd + 1, e)
    ensures fd in Leavers(a.v, os, fd + 1) ==> Left(fd) in c.log[|b.log|..]
  {
    assert Turned(Key, fd);
    assert c.log == b.log ==> c.log[|b.log|..] == [];
    forall e | c.log == b.log + [e] ensures c.log[|b.log|..] == [e] {}
    if fd in Leavers(a.v, os, fd + 1) { assert c.log[|b.log|..][0] == Left(fd); }
  }

  lemma {:induction false} TellsMore(a: Moment, b: Moment, c: Moment, os: Os, fd: int)
    requires a.Ok() && Visiting(a, b, os, fd) && (fd == a.v.sock ==> b.v.active == a.v.active - Leavers(a.v, os, fd))
    requires Turn(b, c, fd, fd in a.v.active && fd in os.readable,
                  fd in a.v.active && fd != a.v.sock && Writes(a.v, os, fd), os)
    ensures Tells(a, c, os, fd + 1)
  {
    TurnTells(a, b, c, os, fd);
    assert Tells(a, b, os, fd) by { assert Turned(Key, fd); }
    TellsOn(a, b, c, os, fd);
  }

  lemma {:induction false} TellsOn(a: Moment, b: Moment, c: Moment, os: Os, fd: int)
    requires Tells(a, b, os, fd) && b.log <= c.log
    requires forall e <- c.log[|b.log|..] :: Caused(a.v, os, fd + 1, e)
    requires fd in Leavers(a.v, os, fd + 1) ==> Left(fd) in c.log[|b.log|..]
    ensures Tells(a, c, os, fd + 1)
  {
    var before, more := b.log[|a.log|..], c.log[|b.log|..];
    assert a.log <= c.log by { assert c.log[..|a.log|] == b.log[..|a.log|]; }
    assert c.log[|a.log|..] == before + more by { assert c.log == b.log + more; }
    forall e | e in c.log[|a.log|..] ensures Caused(a.v, os, fd + 1, e) {
      if e in before { CausedLater(a.v, os, fd, e); }
    }
    forall f | f in Leavers(a.v, os, fd + 1) ensures Left(f) in c.log[|a.log|..] {
      assert f in Leavers(a.v, os, fd) || f == fd;
    }
  }

  lemma {:induction false} CausedLater(v: View, os: Os, fd: int, e: Event)
    requires Caused(v, os, fd, e)
    ensures Caused(v, os, fd + 1, e)
  {
  }

  lemma {:induction false} VisitingEnd(a: Moment, b: Moment, os: Os, fd: int)
    requires a.Ok() && Visiting(a, b, os, fd) && a.v.maxfd < fd
    ensures Passed(a, b, os)
  {
    assert Turned(Key, fd);
    assert Leavers(a.v, os, SIZE) == Leavers(a.v, os, fd);
    forall e | e in b.log[|a.log|..] ensures Caused(a.v, os, SIZE, e) {
      assert Caused(a.v, os, fd, e);
    }
  }

  // ----- The server -------------------------------------------------------------------------

  /** The joined copy that replaces `buf`. */
  method StrJoin(buf: Option<string>, add: string) returns (joined: Option<string>)
    ensures joined == Some(Str(buf) + add)
  {
    var text := "";
    if buf.Some? { text := buf.value; }
    joined := Some(text + add);
  }

  /** Cuts the first line, newline included, from `buf`. */
  method ExtractMessage(buf: Option<string>) returns (found: bool, rest: Option<string>, msg: string)
    ensures found <==> !NoNewline(Str(buf))
    ensures found ==> rest.Some? && msg != "" && msg[|msg| - 1] == '\n' && NoNewline(msg[..|msg| - 1]) &&
                      buf == Some(msg + rest.value)
    ensures !found ==> rest == buf
  {
    found, rest, msg := false, buf, "";
    if buf == None { return; }
    var i := 0;
    while i < |buf.value|
      invariant 0 <= i <= |buf.value|
      invariant NoNewline(buf.value[..i])
    {
      if buf.value[i] == '\n' {
        found, rest, msg := true, Some(buf.value[i + 1..]), buf.value[..i + 1];
        assert msg[..i] == buf.value[..i];
        assert buf.value == msg + rest.value;
        return;
      }
      assert buf.value[..i + 1] == buf.value[..i] + [buf.value[i]];
      i := i + 1;
    }
    assert buf.value[..i] == buf.value;
  }

  class Relay {
    const sock: int
    var active: set<int>
    var maxfd: int
    var nextId: int
    const ids: array<int>
    const rbuf: array<Option<string>>
    const wbuf: array<Option<string>>
    ghost var got: map<int, string>
    ghost var sent: map<int, string>
    ghost var log: seq<Event>

    ghost function Now(): (v: View)
      reads this, ids, rbuf, wbuf
    {
      View(sock, active, maxfd, nextId, ids[..], rbuf[..], wbuf[..], got, sent)
    }

    ghost function Current(): (m: Moment)
      reads this, ids, rbuf, wbuf
    {
      Moment(log, Now())
    }

    ghost predicate Valid()
      reads this, ids, rbuf, wbuf
    {
      rbuf != wbuf && Current().Ok()
    }

    /** FD_ZERO, FD_SET of the listening socket. */
    constructor (listening: int)
      requires 0 <= listening < SIZE
      ensures Valid() && sock == listening && log == [] && active == {listening}
    {
      sock, active, maxfd, nextId := listening, {listening}, listening, 0;
      ids := new int[SIZE](_ => 0);
      rbuf := new Option<string>[SIZE](_ => None);
      wbuf := new Option<string>[SIZE](_ => None);
      got, sent, log := map[], map[], [];
    }

    method SendAll(except: int, msg: string)
      requires rbuf != wbuf && wbuf.Length == SIZE && maxfd < SIZE && forall f <- active :: 0 <= f <= maxfd
      modifies wbuf
      ensures Sent(old(wbuf[..]), wbuf[..], active, sock, except, msg)
    {
      var fd := 0;
      while fd <= maxfd
        invariant 0 <= fd && (fd <= maxfd + 1 || fd == 0)
        invariant forall f :: 0 <= f < fd <= SIZE ==>
          wbuf[f] == if f in active && f != sock && f != except then Some(Str(old(wbuf[f])) + msg) else old(wbuf[f])
        invariant forall f :: fd <= f < SIZE ==> wbuf[f] == old(wbuf[f])
      {
        if fd in active && fd != except && fd != sock {
          wbuf[fd] := StrJoin(wbuf[fd], msg);
        }
        fd := fd + 1;
      }
    }

    /** A failed accept changes nothing; a new client is announced to all the others. */
    method AcceptClient(connfd: int)
      requires Valid() && connfd < SIZE && connfd !in active
      modifies this, ids, wbuf
      ensures Valid() && old(maxfd) <= maxfd
      ensures if connfd < 0 then Current() == old(Current())
              else active == old(active) + {connfd} && log == old(log) + [Arrived(connfd)] &&
                   Around(old(Now()), Now(), connfd) && IoOf(Now(), connfd) == NEW_IO
    {
      if connfd < 0 { return; }
      ghost var before := Now();
      ids[connfd] := nextId;
      nextId := nextId + 1;
      active := active + {connfd};
      if maxfd < connfd { maxfd := connfd; }
      got, sent := got[connfd := ""], sent[connfd := ""];
      var msg := ArrivalText(ids[connfd]);
      NoticeTexts(before, log, {}, connfd, "");
      SendAll(connfd, msg);
      ArrivalAround(before, log, connfd, msg, Now());
      ArrivalRelays(before, log, connfd, msg, Now());
      log := log + [Arrived(connfd)];
    }

    /** `chunk` is what recv gives. A client that is gone is announced to the others, who get
        nothing else; otherwise its bytes are taken in and its complete lines passed on. */
    method HandleClient(fd: int, chunk: Option<string>)
      requires Valid() && fd in active && fd != sock
      modifies this, rbuf, wbuf
      ensures Valid() && maxfd == old(maxfd) && Around(old(Now()), Now(), fd)
      ensures chunk == None ==>
                active == old(active) - {fd} && log == old(log) + [Left(fd)] &&
                IoOf(Now(), fd).sent == IoOf(old(Now()), fd).sent
      ensures chunk.Some? ==>
                active == old(active) && old(log) <= log && Only(fd, log[|old(log)|..]) &&
                ReadFrom(IoOf(old(Now()), fd), IoOf(Now(), fd), CString(chunk.value))
    {
      ghost var before, story := Now(), log;
      Conservation(before, log, fd);
      if chunk == None {
        var msg := DepartureText(ids[fd]);
        rbuf[fd] := None;
        wbuf[fd] := None;
        active := active - {fd};
        NoticeTexts(before, log, {}, fd, "");
        SendAll(fd, msg);
        SentAround(before, Now(), before.wbuf[fd := None], fd, fd, msg);
        DepartureRelays(before, log, fd, msg, Now());
        log := log + [Left(fd)];
        return;
      }
      rbuf[fd] := StrJoin(rbuf[fd], CString(chunk.value));
      got := got[fd := got[fd] + CString(chunk.value)];
      ghost var received := Now();
      ReceiptRelays(before, log, fd, received, CString(chunk.value));
      AroundReceived(before, received, fd);
      PassLines(fd);
      AroundThen(before, received, Now(), fd);
    }

    /** Every complete line goes to every other client, once each, in order. */
    method PassLines(fd: int)
      requires rbuf != wbuf && Relaying(Now(), log, {fd}) && fd in active && fd != sock
      modifies `log, rbuf, wbuf
      ensures Valid() && old(log) <= log && Only(fd, log[|old(log)|..])
      ensures Around(old(Now()), Now(), fd) && IoOf(Now(), fd) == IoOf(old(Now()), fd)
    {
      ghost var start, story := Now(), log;
      AroundReceived(start, start, fd);
      var found, rest, line := ExtractMessage(rbuf[fd]);
      while found
        invariant Relaying(Now(), log, {fd}) && story <= log && Only(fd, log[|story|..])
        invariant Around(start, Now(), fd) && IoOf(Now(), fd) == IoOf(start, fd)
        invariant found <==> !NoNewline(Str(rbuf[fd]))
        invariant found ==> rest.Some? && line != "" && line[|line| - 1] == '\n' && NoNewline(line[..|line| - 1]) &&
                            rbuf[fd] == Some(line + rest.value)
        decreases |Str(rbuf[fd])|
      {
        ghost var before, told := Now(), log;
        PassLine(fd, line, rest);
        AroundThen(start, before, Now(), fd);
        OnlyMore(fd, story, told, line[..|line| - 1]);
        found, rest, line := ExtractMessage(rbuf[fd]);
      }
      NothingLeft(Now(), log, fd);
    }

    /** One line, newline included, of the buffer of `fd`; `rest` is what follows it. */
    method PassLine(fd: int, line: string, rest: Option<string>)
      requires rbuf != wbuf && Relaying(Now(), log, {fd}) && fd in active && fd != sock
      requires line != "" && line[|line| - 1] == '\n' && NoNewline(line[..|line| - 1])
      requires rest.Some? && rbuf[fd] == Some(line + rest.value)
      modifies `log, rbuf, wbuf
      ensures Relaying(Now(), log, {fd}) && rbuf[fd] == rest && log == old(log) + [Said(fd, line[..|line| - 1])]
      ensures Around(old(Now()), Now(), fd) && IoOf(Now(), fd) == IoOf(old(Now()), fd)
    {
      ghost var before, piece := Now(), line[..|line| - 1];
      assert line == piece + "\n";
      rbuf[fd] := rest;
      var out := LineText(ids[fd], line);
      NoticeTexts(before, log, {fd}, fd, piece);
      SendAll(fd, out);
      SentAround(before, Now(), before.wbuf, fd, fd, out);
      LineRelays(before, log, fd, out, Now(), piece, rest.value);
      log := log + [Said(fd, piece)];
    }

    /** Called on descriptors with something to send only: the buffer is never missing. */
    method FlushClient(fd: int, n: int)
      requires Valid() && fd in active && fd != sock && wbuf[fd].Some? && n <= |wbuf[fd].value|
      modifies this`sent, wbuf
      ensures Valid() && log == old(log) && active == old(active) && Around(old(Now()), Now(), fd)
      ensures n <= |IoOf(old(Now()), fd).waiting| && Sends(IoOf(old(Now()), fd), IoOf(Now(), fd), n)
    {
      ghost var before := Now();
      Conservation(before, log, fd);
      AroundReceived(before, before, fd);
      if n <= 0 {
        assert sent[fd] + "" == sent[fd];
        return;
      }
      var text := wbuf[fd].value;
      wbuf[fd] := if n == |text| then None else Some(text[n..]);
      sent := sent[fd := sent[fd] + text[..n]];
      FlushRelays(before, log, fd, Now(), n);
    }

    /** One turn of the select loop. */
    method Round(os: Os)
      requires Valid() && Lawful(os)
      modifies this, ids, rbuf, wbuf
      ensures Valid() && Passed(old(Current()), Current(), os)
    {
      ghost var a := Current();
      var rfds := active;
      var wfds := Pending();
      rfds, wfds := rfds * os.readable, wfds * os.writable;
      VisitingStart(a, os);
      var fd := 0;
      while fd <= maxfd
        invariant Valid() && 0 <= fd && a.v.maxfd <= maxfd
        invariant Visiting(a, Current(), os, fd)
        decreases SIZE - fd
      {
        ghost var b := Current();
        StillThere(a, b, os, fd);
        Visit(fd, fd in rfds, fd in wfds, os);
        VisitStep(a, b, Current(), os, fd);
        fd := fd + 1;
      }
      VisitingEnd(a, Current(), os, fd);
    }

    /** `readable` and `writable` say what select found: they hold of clients that are still there,
        the second only of clients with something to send. */
    method Visit(fd: int, readable: bool, writable: bool, os: Os)
      requires Valid() && Lawful(os) && 0 <= fd <= maxfd
      requires (readable ==> fd in active) && (writable ==> fd in active && fd != sock && wbuf[fd].Some?)
      modifies this, ids, rbuf, wbuf
      ensures Valid() && old(maxfd) <= maxfd && Turn(old(Current()), Current(), fd, readable, writable, os)
    {
      ghost var b := Current();
      NoEmptyBuffer(b.v, b.log);
      AroundReceived(b.v, b.v, fd);
      if readable {
        if fd == sock {
          AcceptClient(os.accept(active));
          return;
        }
        HandleClient(fd, os.recv(fd));
      }
      ghost var read := Current();
      if writable && fd in active {
        assert IoOf(read.v, fd).waiting == IoOf(b.v, fd).waiting != "";
        FlushClient(fd, os.send(fd, |wbuf[fd].value|));
      }
      if fd != sock { ReadAndFlushed(b, read, Current(), fd, readable, writable, os); }
    }

    /** The clients with something waiting to be sent. */
    method Pending() returns (wfds: set<int>)
      requires Valid()
      ensures forall f :: f in wfds <==> f in active && f != sock && IoOf(Now(), f).waiting != ""
    {
      SocketHasNoBuffer(Now(), log);
      NoEmptyBuffer(Now(), log);
      wfds := {};
      var fd := 0;
      while fd <= maxfd
        invariant 0 <= fd <= SIZE
        invariant forall f :: f in wfds <==> f in active && f < fd && wbuf[f].Some?
      {
        if fd in active && wbuf[fd] != None { wfds := wfds + {fd}; }
        fd := fd + 1;
      }
    }

    /** Any number of rounds, with the state before and after each: every round does to every
        client exactly what its readiness calls for. */
    method Run(rounds: seq<Os>) returns (ghost trace: seq<Moment>)
      requires Valid() && forall os <- rounds :: Lawful(os)
      modifies this, ids, rbuf, wbuf
      ensures Valid() && |trace| == |rounds| + 1 && trace[0] == old(Current()) && trace[|rounds|] == Current()
      ensures forall i :: 0 <= i <= |rounds| ==> trace[i].Ok()
      ensures forall i :: 0 <= i < |rounds| ==> Passed(trace[i], trace[i + 1], rounds[i])
    {
      trace := [Current()];
      for i := 0 to |rounds|
        invariant Valid() && |trace| == i + 1 && trace[0] == old(Current()) && trace[i] == Current()
        invariant forall j :: 0 <= j <= i ==> trace[j].Ok()
        invariant forall j :: 0 <= j < i ==> Passed(trace[j], trace[j + 1], rounds[j])
      {
        Round(rounds[i]);
        trace := trace + [Current()];
      }
    }
  }
}
