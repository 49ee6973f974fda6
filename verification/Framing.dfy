/** Cutting a byte stream into lines: the reference split, the eager splitter of the bot
    (bonus/irc/LineBuffer.cpp) and what a printed stream decodes to. */
module Framing {
  import opened Wire

  /** Index of the first newline, or the length. */
  function Cut(s: string): (n: nat)
    ensures n <= |s|
    ensures forall i :: 0 <= i < n ==> s[i] != '\n'
    ensures n < |s| ==> s[n] == '\n'
  {
    if s == "" || s[0] == '\n' then 0 else 1 + Cut(s[1..])
  }

  function Chomp(line: string): string {
    if line != "" && line[|line| - 1] == '\r' then line[..|line| - 1] else line
  }

  /** The newline-terminated pieces, without their newlines. */
  function Pieces(s: string): seq<string> {
    if Cut(s) == |s| then [] else [s[..Cut(s)]] + Pieces(s[Cut(s) + 1..])
  }

  function Residue(s: string): string {
    if Cut(s) == |s| then s else Residue(s[Cut(s) + 1..])
  }

  function ChompAll(pieces: seq<string>): (r: seq<string>)
    ensures |r| == |pieces|
  {
    seq(|pieces|, i requires 0 <= i < |pieces| => Chomp(pieces[i]))
  }

  lemma ChompConcat(a: seq<string>, b: seq<string>)
    ensures ChompAll(a + b) == ChompAll(a) + ChompAll(b)
  {
  }

  function Lines(s: string): seq<string> { ChompAll(Pieces(s)) }

  function Terminated(pieces: seq<string>): string {
    if pieces == [] then "" else pieces[0] + "\n" + Terminated(pieces[1..])
  }

  lemma CutAt(piece: string, rest: string)
    requires NoNewline(piece)
    ensures Cut(piece + "\n" + rest) == |piece|
  {
    assert (piece + "\n" + rest)[|piece|] == '\n';
    assert forall i :: 0 <= i < |piece| ==> piece[i] in piece;
  }

  lemma CutClean(s: string)
    ensures Cut(s) == |s| <==> NoNewline(s)
    ensures NoNewline(s[..Cut(s)])
  {
    if NoNewline(s) { assert forall i :: 0 <= i < |s| ==> s[i] in s; }
  }

  /** The split is the only way to write a stream as newline-terminated pieces and a
      newline-free rest. */
  lemma {:induction false} SplitUnique(pieces: seq<string>, rest: string)
    requires NoNewline(rest) && forall p <- pieces :: NoNewline(p)
    ensures Pieces(Terminated(pieces) + rest) == pieces && Residue(Terminated(pieces) + rest) == rest
  {
    var s := Terminated(pieces) + rest;
    if pieces == [] {
      assert s == rest;
      CutClean(s);
    } else {
      var more := Terminated(pieces[1..]) + rest;
      assert s == pieces[0] + "\n" + more;
      assert pieces[0] in pieces;
      CutAt(pieces[0], more);
      assert s[|pieces[0]| + 1..] == more && s[..|pieces[0]|] == pieces[0];
      SplitUnique(pieces[1..], rest);
    }
  }

  lemma {:induction false} SplitClean(s: string)
    ensures NoNewline(Residue(s)) && |Residue(s)| <= |s|
    ensures forall p <- Pieces(s) :: NoNewline(p)
    decreases |s|
  {
    CutClean(s);
    if Cut(s) < |s| { SplitClean(s[Cut(s) + 1..]); }
  }

  lemma {:induction false} LineAndRest(piece: string, more: string, rest: string)
    ensures (piece + "\n" + more) + rest == piece + "\n" + (more + rest)
  {
  }

  lemma {:induction false} Reassembled(s: string, n: nat)
    requires n < |s| && s[n] == '\n'
    ensures s == s[..n] + "\n" + s[n + 1..]
  {
  }

  /** Nothing is lost or invented by the split. */
  lemma {:induction false} SplitConserves(s: string)
    ensures s == Terminated(Pieces(s)) + Residue(s)
    decreases |s|
  {
    var n := Cut(s);
    if n < |s| {
      var piece, rest := s[..n], s[n + 1..];
      var pieces, residue := Pieces(rest), Residue(rest);
      SplitConserves(rest);
      assert Pieces(s) == [piece] + pieces && Residue(s) == residue;
      Reassembled(s, n);
      TerminatedCons(piece, pieces);
      LineAndRest(piece, Terminated(pieces), residue);
    }
  }

  lemma TerminatedCons(piece: string, pieces: seq<string>)
    ensures Terminated([piece] + pieces) == piece + "\n" + Terminated(pieces)
  {
    assert ([piece] + pieces)[1..] == pieces;
  }

  lemma {:induction false} TerminatedConcat(a: seq<string>, b: seq<string>)
    ensures Terminated(a + b) == Terminated(a) + Terminated(b)
  {
    if a == [] {
      assert a + b == b;
    } else {
      assert (a + b)[1..] == a[1..] + b;
      TerminatedConcat(a[1..], b);
    }
  }

  lemma PiecesResume(a: string, b: string)
    ensures Pieces(a + b) == Pieces(a) + Pieces(Residue(a) + b)
    ensures Residue(a + b) == Residue(Residue(a) + b)
  {
    var more := Residue(a) + b;
    SplitClean(a);
    SplitClean(more);
    SplitConserves(a);
    SplitConserves(more);
    Regroup(a, b, Pieces(a), Residue(a), Pieces(more), Residue(more));
    SplitUnique(Pieces(a) + Pieces(more), Residue(more));
  }

  lemma Regroup(a: string, b: string, p: seq<string>, r: string, q: seq<string>, t: string)
    requires a == Terminated(p) + r && r + b == Terminated(q) + t
    ensures a + b == Terminated(p + q) + t
  {
    TerminatedConcat(p, q);
    calc {
      a + b;
      Terminated(p) + (r + b);
      Terminated(p) + (Terminated(q) + t);
      Terminated(p + q) + t;
    }
  }

  /** Splitting may be interrupted anywhere and resumed from the residue. */
  lemma SplitResumes(a: string, b: string)
    ensures Lines(a + b) == Lines(a) + Lines(Residue(a) + b)
    ensures Residue(a + b) == Residue(Residue(a) + b)
  {
    PiecesResume(a, b);
    ChompConcat(Pieces(a), Pieces(Residue(a) + b));
  }

  lemma {:induction false} FirstLine(s: string)
    requires Cut(s) < |s|
    ensures Lines(s) == [Chomp(s[..Cut(s)])] + Lines(s[Cut(s) + 1..])
    ensures Residue(s) == Residue(s[Cut(s) + 1..])
  {
    var first, rest := s[..Cut(s)], s[Cut(s) + 1..];
    assert Pieces(s) == [first] + Pieces(rest);
    ChompConcat([first], Pieces(rest));
  }

  // ----- Lines as they are written ----------------------------------------------------------

  /** A line, which ends in a newline, and whether a carriage return stands before that. */
  datatype Ended = Ended(text: string, cr: bool)
  {
    function Bytes(): string { text + (if cr then "\r\n" else "\n") }

    predicate Plain() { '\n' !in text && (!cr ==> text == "" || text[|text| - 1] != '\r') }
  }

  function Stream(ws: seq<Ended>): string {
    if ws == [] then "" else ws[0].Bytes() + Stream(ws[1..])
  }

  function TextsOf(ws: seq<Ended>): (r: seq<string>)
    ensures |r| == |ws|
  {
    seq(|ws|, i requires 0 <= i < |ws| => ws[i].text)
  }

  /** `s` is these written lines and an unfinished one. */
  predicate Framed(s: string, ws: seq<Ended>, rest: string) {
    s == Stream(ws) + rest && (forall w <- ws :: w.Plain()) && '\n' !in rest
  }

  lemma {:induction false} FirstEnded(w: Ended, more: string)
    requires w.Plain()
    ensures var s := w.Bytes() + more;
            Cut(s) < |s| && Chomp(s[..Cut(s)]) == w.text && s[Cut(s) + 1..] == more
  {
    var piece := if w.cr then w.text + "\r" else w.text;
    assert w.Bytes() + more == piece + "\n" + more;
    CutAt(piece, more);
    assert (piece + "\n" + more)[..|piece|] == piece;
  }

  lemma {:induction false} Unfinished(s: string, rest: string)
    requires Framed(s, [], rest)
    ensures Lines(s) == [] && Residue(s) == rest
  {
    assert s == rest;
    CutClean(s);
  }

  lemma {:induction false} EndedLine(w: Ended, more: string)
    requires w.Plain()
    ensures Lines(w.Bytes() + more) == [w.text] + Lines(more) && Residue(w.Bytes() + more) == Residue(more)
  {
    FirstEnded(w, more);
    FirstLine(w.Bytes() + more);
  }

  lemma {:induction false} TextsCons(ws: seq<Ended>)
    requires ws != []
    ensures TextsOf(ws) == [ws[0].text] + TextsOf(ws[1..])
  {
  }

  /** Lines may end in a newline or in carriage return and newline: a stream of such lines is cut
      into exactly their texts, whatever they are, and what is unfinished stays. */
  lemma {:induction false} FramedLines(s: string, ws: seq<Ended>, rest: string)
    requires Framed(s, ws, rest)
    ensures Lines(s) == TextsOf(ws) && Residue(s) == rest
    decreases |ws|
  {
    if ws == [] {
      Unfinished(s, rest);
    } else {
      var more := Stream(ws[1..]) + rest;
      Regrouped(ws[0].Bytes(), Stream(ws[1..]), rest);
      assert ws[0] in ws;
      EndedLine(ws[0], more);
      FramedLines(more, ws[1..], rest);
      TextsCons(ws);
    }
  }

  lemma {:induction false} FirstOfStream(s: string, n: nat) returns (w: Ended)
    requires n < |s| && s[n] == '\n' && NoNewline(s[..n])
    ensures w.Plain() && s == w.Bytes() + s[n + 1..]
  {
    Reassembled(s, n);
    if n > 0 && s[n - 1] == '\r' {
      w := Ended(s[..n - 1], true);
      assert s[..n] == s[..n - 1] + "\r";
      assert "\r\n" == "\r" + "\n";
    } else {
      w := Ended(s[..n], false);
    }
  }

  /** Every stream is of this kind. */
  lemma {:induction false} AnyStream(s: string) returns (ws: seq<Ended>, rest: string)
    ensures Framed(s, ws, rest)
    decreases |s|
  {
    CutClean(s);
    var n := Cut(s);
    if n == |s| {
      ws, rest := [], s;
      assert s == "" + s;
    } else {
      ws, rest := AnyStream(s[n + 1..]);
      var w := FirstOfStream(s, n);
      Regrouped(w.Bytes(), Stream(ws), rest);
      assert ([w] + ws)[1..] == ws;
      ws := [w] + ws;
    }
  }

  // ----- What printed lines decode to -------------------------------------------------------

  function RenderAll(lines: seq<Line>): string {
    if lines == [] then "" else RenderAll(lines[..|lines| - 1]) + Render(lines[|lines| - 1])
  }

  function Bodies(lines: seq<Line>): (r: seq<string>)
    ensures |r| == |lines|
  {
    seq(|lines|, i requires 0 <= i < |lines| => Body(lines[i]))
  }

  lemma RenderIsOneLine(l: Line)
    requires CleanLine(l)
    ensures Lines(Render(l)) == [Body(l)] && Residue(Render(l)) == ""
  {
    BodyClean(l);
    var piece := Body(l) + "\r";
    assert Terminated([piece]) == piece + "\n" + Terminated([]);
    assert Render(l) == Terminated([piece]) + "";
    SplitUnique([piece], "");
    assert Chomp(piece) == Body(l);
  }

  /** The bytes of clean printed lines decode to exactly one line each, in order. */
  lemma {:induction false} DecodeRendered(lines: seq<Line>)
    requires forall l <- lines :: CleanLine(l)
    ensures Lines(RenderAll(lines)) == Bodies(lines) && Residue(RenderAll(lines)) == ""
  {
    if lines != [] {
      var front, last := lines[..|lines| - 1], lines[|lines| - 1];
      DecodeRendered(front);
      assert last in lines;
      DecodeOneMore(RenderAll(front), last);
      assert Bodies(lines) == Bodies(front) + [Body(last)];
    }
  }

  lemma DecodeOneMore(s: string, l: Line)
    requires CleanLine(l) && Residue(s) == ""
    ensures Lines(s + Render(l)) == Lines(s) + [Body(l)] && Residue(s + Render(l)) == ""
  {
    SplitResumes(s, Render(l));
    assert "" + Render(l) == Render(l);
    RenderIsOneLine(l);
  }

  lemma RenderAllAppend(lines: seq<Line>, l: Line)
    ensures RenderAll(lines + [l]) == RenderAll(lines) + Render(l)
  {
    assert (lines + [l])[..|lines|] == lines;
  }

  // ----- The eager splitter -----------------------------------------------------------------

  class LineBuffer {
    var buffer: string
    var lines: seq<string>
    ghost var received: string      // everything appended so far
    ghost var popped: seq<string>   // everything popped so far

    /** However the stream was chunked, the lines handed out and queued are those of the
        reference split, and the buffer is its newline-free residue. */
    ghost predicate Valid()
      reads this
    {
      popped + lines == Lines(received) && buffer == Residue(received)
    }

    constructor ()
      ensures Valid() && received == "" && popped == [] && lines == []
    {
      buffer, lines, received, popped := "", [], "", [];
      new;
      assert Pieces("") == [];
    }

    method Append(data: string)
      requires Valid()
      modifies this
      ensures Valid() && received == old(received) + data && popped == old(popped)
      ensures lines == old(lines) + Lines(old(buffer) + data)
      ensures forall ws, rest :: Framed(old(buffer) + data, ws, rest) ==>
                lines == old(lines) + TextsOf(ws) && buffer == rest
    {
      buffer := buffer + data;
      ghost var whole := buffer;
      SplitOff();
      assert Lines(received + data) == Lines(received) + Lines(whole) && Residue(received + data) == Residue(whole) by {
        SplitResumes(received, data);
      }
      Regrouped(popped, old(lines), Lines(whole));
      received := received + data;
      forall ws, rest | Framed(whole, ws, rest) ensures Lines(whole) == TextsOf(ws) && Residue(whole) == rest {
        FramedLines(whole, ws, rest);
      }
    }

    /** The loop that moves complete lines from the buffer to the queue. */
    method SplitOff()
      modifies `buffer, `lines
      ensures lines == old(lines) + Lines(old(buffer)) && buffer == Residue(old(buffer))
    {
      ghost var all := lines + Lines(buffer);
      var lineEnd := Cut(buffer);
      while lineEnd != |buffer|
        invariant lineEnd == Cut(buffer)
        invariant lines + Lines(buffer) == all
        invariant Residue(buffer) == Residue(old(buffer))
        decreases |buffer|
      {
        FirstLine(buffer);
        var line := buffer[..lineEnd];
        if line != "" && line[|line| - 1] == '\r' { line := line[..|line| - 1]; }
        Regrouped(lines, [line], Lines(buffer[lineEnd + 1..]));
        lines := lines + [line];
        buffer := buffer[lineEnd + 1..];
        lineEnd := Cut(buffer);
      }
      assert Lines(buffer) == [];
    }

    method HasLine() returns (r: bool)
      ensures r <==> lines != []
    {
      r := lines != [];
    }

    method PopLine() returns (line: string)
      requires Valid()
      modifies this
      ensures Valid() && received == old(received)
      ensures old(lines) == [] ==> line == "" && lines == [] && popped == old(popped)
      ensures old(lines) != [] ==> old(lines) == [line] + lines && popped == old(popped) + [line]
    {
      if lines == [] { return ""; }
      line := lines[0];
      lines := lines[1..];
      popped := popped + [line];
    }
  }
}
