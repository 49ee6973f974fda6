/** What the message parser accepts, as a grammar of lines (section 2.3.1 of RFC 2812): any number of
    blanks between the parts, the command in either case (src/b/Parser.cpp). */
module Layouts {
  import opened Wire

  function Gap(n: nat): string { if n == 0 then "" else " " + Gap(n - 1) }

  /** `read` is `typed` in capitals. */
  predicate Capital(typed: char, read: char) {
    if 'a' <= typed <= 'z' then read as int == typed as int - 32 else read == typed
  }

  predicate Capitals(typed: string, read: string) {
    |typed| == |read| && forall i :: 0 <= i < |typed| ==> Capital(typed[i], read[i])
  }

  /** A word and the number of blanks before it, beyond the one that has to be there. */
  datatype Word = Word(blanks: nat, text: string)

  function WordsText(words: seq<Word>): string {
    if words == [] then "" else " " + Gap(words[0].blanks) + words[0].text + WordsText(words[1..])
  }

  function Texts(words: seq<Word>): (r: seq<string>)
    ensures |r| == |words|
  {
    seq(|words|, i requires 0 <= i < |words| => words[i].text)
  }

  /** A way to write a message: `lead` blanks, perhaps a prefix, the command, the middle parameters
      and the rest, which is a trailing parameter or only blanks. */
  datatype Layout = Layout(
    lead: nat, prefix: Option<Word>, command: string, words: seq<Word>, trailing: Option<string>, last: nat)
  {
    predicate Good() {
      (prefix.Some? ==> SpaceFree(prefix.value.text)) && SpaceFree(command) && command != "" &&
      (prefix.None? ==> command[0] != ':') && forall w <- words :: IsMiddle(w.text)
    }

    function End(): string { if trailing.Some? then " " + Gap(last) + ":" + trailing.value else Gap(last) }

    function Start(): string {
      if prefix.Some? then ":" + prefix.value.text + " " + Gap(prefix.value.blanks) else ""
    }

    function Text(): string { Gap(lead) + (Start() + (command + (WordsText(words) + End()))) }

    /** The message that is written. */
    predicate Reads(m: Message) {
      m.prefix == (if prefix.Some? then prefix.value.text else "") && Capitals(command, m.command) &&
      m.params == Texts(words) + if trailing.Some? then [trailing.value] else []
    }

    /** With its terminator, or without when it does not end like one. */
    predicate Lays(line: string) {
      line == Text() + "\r\n" || (line == Text() && !(|line| >= 2 && line[|line| - 2..] == "\r\n"))
    }
  }

  // ----- Every layout is read ---------------------------------------------------------------

  lemma {:induction false} UpperIsCapitals(typed: string, read: string)
    ensures Capitals(typed, read) <==> read == Upper(typed)
  {
  }

  lemma {:induction false} GapDropped(n: nat, s: string)
    ensures DropSpaces(Gap(n) + s) == DropSpaces(s)
  {
    if n == 0 {
      assert Gap(n) + s == s;
    } else {
      assert (Gap(n) + s)[1..] == Gap(n - 1) + s;
      GapDropped(n - 1, s);
    }
  }

  lemma {:induction false} Spaced2(n: nat, text: string, more: string)
    ensures " " + Gap(n) + text + more == Gap(n + 1) + (text + more)
  {
    assert Gap(n + 1) == " " + Gap(n);
  }

  lemma {:induction false} BlankStart(words: seq<Word>, end: string)
    requires end == "" || end[0] == ' '
    ensures var t := WordsText(words) + end; t == "" || t[0] == ' '
  {
  }

  lemma {:induction false} EndBlank(l: Layout)
    ensures l.End() == "" || l.End()[0] == ' '
  {
  }

  lemma {:induction false} EndRead(l: Layout)
    ensures Params(l.End()) == if l.trailing.Some? then [l.trailing.value] else []
  {
    if l.trailing.Some? {
      var t := ":" + l.trailing.value;
      assert l.End() == Gap(l.last + 1) + t by { Spaced2(l.last, ":", l.trailing.value); }
      GapDropped(l.last + 1, t);
      assert DropSpaces(t) == t && t[1..] == l.trailing.value;
    } else {
      GapDropped(l.last, "");
      assert Gap(l.last) + "" == Gap(l.last);
    }
  }

  lemma {:induction false} WordsRead(words: seq<Word>, end: string)
    requires forall w <- words :: IsMiddle(w.text)
    requires end == "" || end[0] == ' '
    ensures Params(WordsText(words) + end) == Texts(words) + Params(end)
  {
    if words == [] {
      assert WordsText(words) + end == end && Texts(words) + Params(end) == Params(end);
    } else {
      var w, rest := words[0], WordsText(words[1..]) + end;
      WordsRead(words[1..], end);
      BlankStart(words[1..], end);
      Spaced2(w.blanks, w.text, rest);
      Regrouped(" " + Gap(w.blanks) + w.text, WordsText(words[1..]), end);
      WordRead(w, rest);
      TextsCons(words);
      Regrouped([w.text], Texts(words[1..]), Params(end));
    }
  }

  lemma {:induction false} TextsCons(words: seq<Word>)
    requires words != []
    ensures Texts(words) == [words[0].text] + Texts(words[1..])
  {
  }

  lemma {:induction false} WordRead(w: Word, rest: string)
    requires IsMiddle(w.text) && (rest == "" || rest[0] == ' ')
    ensures Params(Gap(w.blanks + 1) + (w.text + rest)) == [w.text] + Params(rest)
  {
    assert w.text[0] in w.text;
    GapDropped(w.blanks + 1, w.text + rest);
    assert DropSpaces(w.text + rest) == w.text + rest;
    TokenOf(w.text, rest);
  }

  lemma {:induction false} CommandReadBack(l: Layout, prefix: string)
    requires l.Good()
    ensures var s := l.command + (WordsText(l.words) + l.End());
            s != "" && s[0] == l.command[0] && s[0] != ' ' &&
            ParseCommand(prefix, s) ==
            Message(prefix, Upper(l.command), Texts(l.words) + if l.trailing.Some? then [l.trailing.value] else [])
  {
    EndBlank(l);
    BlankStart(l.words, l.End());
    assert l.command[0] in l.command;
    TokenOf(l.command, WordsText(l.words) + l.End());
    WordsRead(l.words, l.End());
    EndRead(l);
  }

  lemma {:induction false} PrefixSkipped(w: Word, rest: string)
    requires SpaceFree(w.text) && rest != "" && rest[0] != ' '
    ensures ParseBody(":" + w.text + " " + Gap(w.blanks) + rest) == ParseCommand(w.text, rest)
  {
    var word, more := ":" + w.text, Gap(w.blanks + 1) + rest;
    var all := word + more;
    assert all == ":" + w.text + " " + Gap(w.blanks) + rest by {
      assert Gap(w.blanks + 1) == " " + Gap(w.blanks);
    }
    TokenOf(word, more);
    GapDropped(w.blanks + 1, rest);
    assert DropSpaces(all) == all && DropSpaces(rest) == rest && word[1..] == w.text;
  }

  lemma {:induction false} LeadSkipped(n: nat, s: string)
    ensures ParseBody(Gap(n) + s) == ParseBody(s)
  {
    GapDropped(n, s);
  }

  lemma {:induction false} LayoutRead(l: Layout)
    requires l.Good()
    ensures l.Reads(ParseBody(l.Text()))
  {
    var s := l.command + (WordsText(l.words) + l.End());
    var prefix := if l.prefix.Some? then l.prefix.value.text else "";
    LeadSkipped(l.lead, l.Start() + s);
    UpperIsCapitals(l.command, Upper(l.command));
    CommandReadBack(l, prefix);
    StartSkipped(l, s);
  }

  lemma {:induction false} StartSkipped(l: Layout, rest: string)
    requires l.Good() && rest != "" && rest[0] == l.command[0] && rest[0] != ' '
    ensures ParseBody(l.Start() + rest) == ParseCommand(if l.prefix.Some? then l.prefix.value.text else "", rest)
  {
    if l.prefix.Some? {
      PrefixSkipped(l.prefix.value, rest);
    } else {
      assert l.Start() + rest == rest && DropSpaces(rest) == rest;
    }
  }

  // ----- Every line that is read is a layout ------------------------------------------------

  lemma {:induction false} LeadingGap(s: string) returns (n: nat)
    ensures n == |s| - |DropSpaces(s)| && s == Gap(n) + DropSpaces(s)
    ensures DropSpaces(s) != "" ==> DropSpaces(s)[0] != ' '
  {
    if s != "" && s[0] == ' ' {
      var m := LeadingGap(s[1..]);
      n := m + 1;
      assert s == " " + s[1..];
      Regrouped(" ", Gap(m), DropSpaces(s));
    } else {
      n := 0;
      assert Gap(0) + s == s;
    }
  }

  lemma {:induction false} TokenEnds(s: string)
    ensures AfterToken(s) == "" || AfterToken(s)[0] == ' '
    ensures s == Token(s) + AfterToken(s)
  {
    if s != "" && s[0] != ' ' {
      TokenEnds(s[1..]);
      assert AfterToken(s) == AfterToken(s[1..]);
    }
  }

  lemma {:induction false} WordsOf(s: string) returns (words: seq<Word>, trailing: Option<string>, last: nat)
    requires s == "" || s[0] == ' '
    ensures forall w <- words :: IsMiddle(w.text)
    ensures s == WordsText(words) + if trailing.Some? then " " + Gap(last) + ":" + trailing.value else Gap(last)
    decreases |s|
  {
    var n := LeadingGap(s);
    var t := DropSpaces(s);
    words, trailing, last := [], None, n;
    if t == "" {
      assert s == WordsText([]) + Gap(n);
    } else if t[0] == ':' {
      trailing, last := Some(t[1..]), n - 1;
      TrailingText(n - 1, t);
      assert WordsText([]) + s == s;
    } else {
      TokenSpaceFree(t);
      TokenEnds(t);
      var word, rest := Token(t), AfterToken(t);
      words, trailing, last := WordsOf(rest);
      var end := if trailing.Some? then " " + Gap(last) + ":" + trailing.value else Gap(last);
      WordText(Word(n - 1, word), words, end);
      words := [Word(n - 1, word)] + words;
    }
  }

  lemma {:induction false} TrailingText(n: nat, t: string)
    requires t != "" && t[0] == ':'
    ensures Gap(n + 1) + t == " " + Gap(n) + ":" + t[1..]
  {
    assert t == ":" + t[1..] && Gap(n + 1) == " " + Gap(n);
  }

  lemma {:induction false} WordText(w: Word, words: seq<Word>, end: string)
    ensures WordsText([w] + words) + end == Gap(w.blanks + 1) + (w.text + (WordsText(words) + end))
  {
    assert ([w] + words)[1..] == words;
    Regrouped(" " + Gap(w.blanks) + w.text, WordsText(words), end);
    Spaced2(w.blanks, w.text, WordsText(words) + end);
  }

  lemma {:induction false} LayoutOf(input: string) returns (l: Layout)
    requires ParseBody(input).command != ""
    ensures l.Good() && l.Text() == input
  {
    var lead := LeadingGap(input);
    var s := DropSpaces(input);
    TokenSpaceFree(s);
    if s[0] == ':' {
      l := PrefixOf(lead, s);
    } else {
      l := CommandOf(lead, None, s);
      assert l.Start() + s == s;
    }
  }

  lemma {:induction false} PrefixOf(lead: nat, s: string) returns (l: Layout)
    requires s != "" && s[0] == ':' && AfterToken(s) != "" && DropSpaces(AfterToken(s)) != ""
    ensures l.Good() && l.lead == lead && s == l.Start() + (l.command + (WordsText(l.words) + l.End()))
  {
    TokenSpaceFree(s);
    TokenEnds(s);
    var rest := AfterToken(s);
    var n := LeadingGap(rest);
    l := CommandOf(lead, Some(Word(n - 1, Token(s)[1..])), DropSpaces(rest));
    StartText(s, n);
    Regrouped(Token(s), Gap(n), DropSpaces(rest));
  }

  lemma {:induction false} StartText(s: string, n: nat)
    requires Token(s) != "" && Token(s)[0] == ':' && n > 0
    ensures ":" + Token(s)[1..] + " " + Gap(n - 1) == Token(s) + Gap(n)
  {
    assert Token(s) == ":" + Token(s)[1..] && Gap(n) == " " + Gap(n - 1);
  }

  /** From the command on. */
  lemma {:induction false} CommandOf(lead: nat, prefix: Option<Word>, s: string) returns (l: Layout)
    requires s != "" && s[0] != ' ' && (prefix.None? ==> s[0] != ':')
    requires prefix.Some? ==> SpaceFree(prefix.value.text)
    ensures l.Good() && l.lead == lead && l.prefix == prefix && s == l.command + (WordsText(l.words) + l.End())
  {
    TokenSpaceFree(s);
    TokenEnds(s);
    var words, trailing, last := WordsOf(AfterToken(s));
    l := Layout(lead, prefix, Token(s), words, trailing, last);
  }

  // ----- The parser and the grammar ---------------------------------------------------------

  lemma {:induction false} LaidOut(l: Layout, line: string)
    ensures l.Lays(line) ==> Parse(line) == ParseBody(l.Text())
  {
    if line == l.Text() + "\r\n" { assert line[..|line| - 2] == l.Text(); }
  }

  /** A line is parsed as a message with a command exactly when it is one of the ways to write that
      message: the parts in this order, any number of blanks between them, the command in capitals
      afterwards however it was typed. */
  lemma {:induction false} ParseIff(line: string, m: Message)
    requires m.command != ""
    ensures Parse(line) == m <==> exists l: Layout :: l.Good() && l.Lays(line) && l.Reads(m)
  {
    if Parse(line) == m {
      var input := StripTerminator(line);
      var l := LayoutOf(input);
      LayoutRead(l);
      LaysStripped(l, line);
    }
    forall l: Layout | l.Good() && l.Lays(line) && l.Reads(m) ensures Parse(line) == m {
      LaidOut(l, line);
      LayoutRead(l);
      ReadsOnce(l, ParseBody(l.Text()), m);
    }
  }

  lemma {:induction false} LaysStripped(l: Layout, line: string)
    requires l.Text() == StripTerminator(line)
    ensures l.Lays(line)
  {
    if |line| >= 2 && line[|line| - 2..] == "\r\n" {
      assert line == line[..|line| - 2] + "\r\n";
    }
  }

  lemma {:induction false} ReadsOnce(l: Layout, m: Message, m': Message)
    requires l.Reads(m) && l.Reads(m')
    ensures m == m'
  {
    UpperIsCapitals(l.command, m.command);
    UpperIsCapitals(l.command, m'.command);
  }

  /** The same word, but for the case of its letters. */
  predicate SameButCase(a: string, b: string) {
    |a| == |b| && forall i :: 0 <= i < |a| ==>
      a[i] == b[i] || ('a' <= a[i] <= 'z' && a[i] as int == b[i] as int + 32) ||
      ('a' <= b[i] <= 'z' && b[i] as int == a[i] as int + 32)
  }

  lemma {:induction false} CapitalsAgree(a: string, b: string, read: string)
    requires SameButCase(a, b) && Capitals(a, read)
    ensures Capitals(b, read) && forall c <- read :: !('a' <= c <= 'z')
  {
    forall i | 0 <= i < |b| ensures Capital(b[i], read[i]) && !('a' <= read[i] <= 'z') {
      assert Capital(a[i], read[i]);
    }
  }

  /** No command holds a small letter, whatever was typed. */
  lemma {:induction false} CommandIsCapital(line: string)
    ensures forall c <- Parse(line).command :: !('a' <= c <= 'z')
  {
    if Parse(line).command != "" {
      var l := LayoutOf(StripTerminator(line));
      LayoutRead(l);
      CapitalsAgree(l.command, l.command, Parse(line).command);
    }
  }

  /** Lines that differ only in the case of their commands are parsed alike. */
  lemma {:induction false} CommandCase(line: string, line': string, l: Layout, command: string)
    requires l.Good() && l.Lays(line) && l.(command := command).Good() && l.(command := command).Lays(line')
    requires SameButCase(l.command, command)
    ensures Parse(line') == Parse(line)
  {
    var l' := l.(command := command);
    LaidOut(l, line);
    LaidOut(l', line');
    LayoutRead(l);
    LayoutRead(l');
    CapitalsAgree(l.command, command, Parse(line).command);
    ReadsOnce(l', Parse(line'), Parse(line));
  }
}
