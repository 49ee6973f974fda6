/** One client connection: receive framing, the length check and the send buffer
    (src/a/Connection.cpp). */
module Connections {
  import opened Wire
  import opened Framing

  const MAX_LINE := 512
  const READ_SIZE := 4097        // sizeof(buf) with buf_size == 4096
  const MAX_RESIDUE := 4096
  const MAX_BUFFER := 8193

  predicate TooLong(buffer: string) {
    |buffer| > MAX_LINE && forall i :: 0 <= i < MAX_LINE ==> buffer[i] != '\n'
  }

  /** The length check, spelled out: more than 512 bytes, and no newline among the first 512. */
  lemma {:induction false} TooLongIff(buffer: string)
    ensures TooLong(buffer) <==> |buffer| > 512 && '\n' !in buffer[..512]
  {
    if |buffer| > 512 {
      assert forall i :: 0 <= i < 512 ==> buffer[i] == buffer[..512][i];
    }
  }

  /** Receive memory: a residue within bounds stays within bounds through every read that the
      connection survives, and a residue of 512 bytes or more does not survive the next read. */
  lemma ReadBound(residue: string, chunk: string)
    requires NoNewline(residue) && |residue| <= 4096
    requires 1 <= |chunk| <= 4097
    ensures |residue + chunk| <= 8193
    ensures !TooLong(residue + chunk) ==> |Residue(residue + chunk)| <= 4096
    ensures |residue| >= 512 ==> TooLong(residue + chunk)
  {
    var whole := residue + chunk;
    SplitClean(whole);
    assert forall i :: 0 <= i < |residue| ==> whole[i] == residue[i] && residue[i] in residue;
    if !TooLong(whole) && |whole| > MAX_LINE {
      assert |residue| <= Cut(whole) < |whole|;
      SplitClean(whole[Cut(whole) + 1..]);
    }
  }

  /** A connection as a value: its two buffers and its history since accept. */
  datatype View = View(
    recv: string,          // received, not yet popped
    send: string,          // queued, not yet sent
    received: string,      // bytes taken from the socket
    popped: seq<string>,   // lines handed to the parser
    queued: seq<Line>,     // messages buffered for sending
    sent: string)          // bytes accepted by the socket
  {
    /** Input: the lines popped and still buffered are those of the received stream.
        Output: the bytes sent and still buffered are the queued messages, in order. */
    ghost predicate Ok() {
      popped + Lines(recv) == Lines(received) && Residue(recv) == Residue(received) &&
      sent + send == RenderAll(queued)
    }

    /** Between two reads the receive buffer holds one bounded, unfinished line. */
    predicate Settled() { NoNewline(recv) && |recv| <= MAX_RESIDUE }
  }

  // ----- The operations on values -----------------------------------------------------------

  const NEW := View("", "", "", [], [], "")

  function Received(v: View, chunk: string): View { v.(recv := v.recv + chunk, received := v.received + chunk) }

  function FirstOf(v: View): string
    requires Cut(v.recv) < |v.recv|
  {
    Chomp(v.recv[..Cut(v.recv)])
  }

  function Popped(v: View): View
    requires Cut(v.recv) < |v.recv|
  {
    v.(recv := v.recv[Cut(v.recv) + 1..], popped := v.popped + [FirstOf(v)])
  }

  function Buffered(v: View, message: Line): View {
    v.(send := v.send + Render(message), queued := v.queued + [message])
  }

  function Written(v: View, taken: int): View
    requires taken <= |v.send|
  {
    if taken <= 0 then v else v.(send := v.send[taken..], sent := v.sent + v.send[..taken])
  }

  lemma NewOk()
    ensures NEW.Ok() && NEW.Settled()
  {
    assert Pieces("") == [];
  }

  lemma {:induction false} SplitInStep(received: string, popped: seq<string>, buffer: string, chunk: string)
    requires popped + Lines(buffer) == Lines(received) && Residue(buffer) == Residue(received)
    ensures popped + Lines(buffer + chunk) == Lines(received + chunk)
    ensures Residue(buffer + chunk) == Residue(received + chunk)
  {
    var more := Lines(Residue(buffer) + chunk);
    assert Lines(received + chunk) == Lines(received) + more by { SplitResumes(received, chunk); }
    assert Lines(buffer + chunk) == Lines(buffer) + more by { SplitResumes(buffer, chunk); }
    assert Residue(buffer + chunk) == Residue(received + chunk) by {
      SplitResumes(received, chunk);
      SplitResumes(buffer, chunk);
    }
    Regrouped(popped, Lines(buffer), more);
  }

  lemma ReceivedOk(v: View, chunk: string)
    requires v.Ok()
    ensures Received(v, chunk).Ok()
  {
    SplitInStep(v.received, v.popped, v.recv, chunk);
  }

  lemma {:induction false} OneLinePopped(v: View)
    requires Cut(v.recv) < |v.recv|
    ensures Lines(v.recv) == [FirstOf(v)] + Lines(Popped(v).recv) && Residue(Popped(v).recv) == Residue(v.recv)
  {
    FirstLine(v.recv);
  }

  lemma {:induction false} FirstClean(v: View)
    requires Cut(v.recv) < |v.recv|
    ensures NoNewline(FirstOf(v))
  {
    CutClean(v.recv);
    assert FirstOf(v) <= v.recv[..Cut(v.recv)];
  }

  /** Popping moves the first buffered line to the popped ones and leaves the residue alone. */
  lemma {:induction false} PoppedOk(v: View)
    requires v.Ok() && Cut(v.recv) < |v.recv|
    ensures Popped(v).Ok() && Residue(Popped(v).recv) == Residue(v.recv) && NoNewline(FirstOf(v))
  {
    OneLinePopped(v);
    Regrouped(v.popped, [FirstOf(v)], Lines(Popped(v).recv));
    FirstClean(v);
  }

  lemma {:induction false} BufferedOk(v: View, message: Line)
    requires v.Ok()
    ensures Buffered(v, message).Ok() && Buffered(v, message).send != ""
  {
    RenderAllAppend(v.queued, message);
    Regrouped(v.sent, v.send, Render(message));
  }

  lemma {:induction false} WrittenOk(v: View, taken: int)
    requires v.Ok() && taken <= |v.send|
    ensures Written(v, taken).Ok()
  {
    if taken > 0 {
      CutInTwo(v.send, taken);
      Regrouped(v.sent, v.send[..taken], v.send[taken..]);
    }
  }

  // ----- The connection object --------------------------------------------------------------

  class Connection {
    const fd: int
    var nlPos: int                 // -1 stands for npos
    var recvBuffer: string
    var sendBuffer: string
    ghost var received: string     // bytes taken from the socket
    ghost var popped: seq<string>  // lines handed to the parser
    ghost var queued: seq<Line>    // messages buffered for sending
    ghost var sent: string         // bytes accepted by the socket

    ghost function Now(): View
      reads this
    {
      View(recvBuffer, sendBuffer, received, popped, queued, sent)
    }

    ghost predicate Valid()
      reads this
    {
      Now().Ok()
    }

    constructor (fd: int)
      ensures this.fd == fd && Now() == NEW && Valid()
    {
      this.fd, nlPos, recvBuffer, sendBuffer := fd, -1, "", "";
      received, popped, queued, sent := "", [], [], "";
      new;
      NewOk();
    }

    /** `chunk` is what recv delivered, or None when it returned 0 or failed. */
    method ReadFromSocket(chunk: Option<string>) returns (ok: bool)
      requires Valid()
      requires chunk.Some? ==> 1 <= |chunk.value| <= READ_SIZE
      modifies `recvBuffer, `received
      ensures Valid() && ok == chunk.Some?
      ensures Now() == if chunk.None? then old(Now()) else Received(old(Now()), chunk.value)
    {
      if chunk.None? { return false; }
      ReceivedOk(Now(), chunk.value);
      recvBuffer := recvBuffer + chunk.value;
      received := received + chunk.value;
      return true;
    }

    method IsLineTooLong() returns (r: bool)
      ensures r <==> TooLong(recvBuffer)
    {
      if |recvBuffer| <= MAX_LINE { return false; }
      var scanEnd := if |recvBuffer| < MAX_LINE then |recvBuffer| else MAX_LINE;
      for i := 0 to scanEnd
        invariant forall j :: 0 <= j < i ==> recvBuffer[j] != '\n'
      {
        if recvBuffer[i] == '\n' { return false; }
      }
      return true;
    }

    method HasCompleteLine() returns (r: bool)
      modifies `nlPos
      ensures r <==> Cut(recvBuffer) < |recvBuffer|
      ensures nlPos == if r then Cut(recvBuffer) else -1
    {
      var n := Cut(recvBuffer);
      nlPos := if n < |recvBuffer| then n else -1;
      return nlPos != -1;
    }

    /** Needs the position cached by a preceding HasCompleteLine. */
    method PopLine() returns (line: string)
      requires Valid() && nlPos == Cut(recvBuffer) < |recvBuffer|
      modifies `recvBuffer, `nlPos, `popped
      ensures Valid() && Now() == Popped(old(Now())) && line == FirstOf(old(Now()))
      ensures forall w: Ended, more :: w.Plain() && old(recvBuffer) == w.Bytes() + more ==>
                line == w.text && recvBuffer == more
    {
      PoppedOk(Now());
      var len := nlPos;
      if nlPos > 0 && recvBuffer[nlPos - 1] == '\r' { len := len - 1; }
      line := recvBuffer[..len];
      assert line == Chomp(recvBuffer[..nlPos]);
      recvBuffer := recvBuffer[nlPos + 1..];
      popped := popped + [line];
      nlPos := -1;
      forall w: Ended, more | w.Plain() && old(recvBuffer) == w.Bytes() + more
        ensures line == w.text && recvBuffer == more
      {
        FirstEnded(w, more);
      }
    }

    /** The loop of a read: pops lines until none is complete, whatever position was cached. */
    method Drain() returns (lines: seq<string>)
      requires Valid()
      modifies `recvBuffer, `nlPos, `popped
      ensures Valid() && lines == Lines(old(recvBuffer)) && recvBuffer == Residue(old(recvBuffer))
      ensures popped == old(popped) + lines && nlPos == -1
      ensures forall ws, rest :: Framed(old(recvBuffer), ws, rest) ==> lines == TextsOf(ws) && recvBuffer == rest
    {
      lines := [];
      var more := HasCompleteLine();
      while more
        invariant Valid() && (more <==> Cut(recvBuffer) < |recvBuffer|)
        invariant nlPos == if more then Cut(recvBuffer) else -1
        invariant lines + Lines(recvBuffer) == Lines(old(recvBuffer)) && Residue(recvBuffer) == Residue(old(recvBuffer))
        invariant popped == old(popped) + lines
        decreases |recvBuffer|
      {
        ghost var v := Now();
        OneLinePopped(v);
        Regrouped(lines, [FirstOf(v)], Lines(Popped(v).recv));
        Regrouped(old(popped), lines, [FirstOf(v)]);
        var line := PopLine();
        lines := lines + [line];
        more := HasCompleteLine();
      }
      assert Lines(recvBuffer) == [];
      ghost var whole := old(recvBuffer);
      forall ws, rest | Framed(whole, ws, rest) ensures Lines(whole) == TextsOf(ws) && Residue(whole) == rest {
        FramedLines(whole, ws, rest);
      }
    }

    method BufferSend(message: Line)
      requires Valid()
      modifies `sendBuffer, `queued
      ensures Valid() && Now() == Buffered(old(Now()), message)
    {
      BufferedOk(Now(), message);
      sendBuffer := sendBuffer + Render(message);
      queued := queued + [message];
    }

    method HasPendingOutput() returns (r: bool)
      ensures r <==> sendBuffer != ""
    {
      return sendBuffer != "";
    }

    /** `taken` is what send returned: at most the buffer's size, or 0 or less on failure. */
    method WriteToSocket(taken: int) returns (ok: bool)
      requires Valid()
      requires taken <= |sendBuffer|
      modifies `sendBuffer, `sent
      ensures Valid() && (ok <==> old(sendBuffer) == "" || taken > 0)
      ensures Now() == Written(old(Now()), taken)
    {
      if sendBuffer == "" { return true; }
      if taken <= 0 { return false; }
      WrittenOk(Now(), taken);
      sent := sent + sendBuffer[..taken];
      sendBuffer := sendBuffer[taken..];
      return true;
    }
  }
}
