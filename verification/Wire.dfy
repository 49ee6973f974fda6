/** The wire format: the message parser (src/b/Parser.cpp) and the line printer shared by
    src/b/ReplyBuilder.cpp and bonus/irc/IrcFormatter.cpp (section 2.3.1 of RFC 1459). */
module Wire {

  datatype Option<+T> = None | Some(value: T)

  datatype Message = Message(prefix: string, command: string, params: seq<string>) {
    predicate HasParam(i: nat) { i < |params| }

    function Param(i: nat): string { if i < |params| then params[i] else "" }
  }

  const EMPTY := Message("", "", [])

  const SERVER_NAME := "irc.local"

  /** A line to be printed: `middles` are joined by spaces, `trailing` follows " :". */
  datatype Line = Line(prefix: string, command: string, middles: seq<string>, trailing: Option<string>)

  lemma {:induction false} Regrouped<T>(a: seq<T>, b: seq<T>, c: seq<T>)
    ensures a + (b + c) == (a + b) + c
  {
  }

  lemma {:induction false} CutInTwo<T>(a: seq<T>, n: nat)
    requires n <= |a|
    ensures a == a[..n] + a[n..]
  {
  }

  lemma {:induction false} OneMore<T>(a: seq<T>, n: nat)
    requires n < |a|
    ensures a[..n + 1] == a[..n] + [a[n]]
  {
  }

  // ----- Reference grammar, on the rest of the input ---------------------------------------

  function DropSpaces(s: string): string {
    if s != "" && s[0] == ' ' then DropSpaces(s[1..]) else s
  }

  function Token(s: string): (t: string)
    ensures |t| <= |s| && t == s[..|t|]
  {
    if s == "" || s[0] == ' ' then "" else [s[0]] + Token(s[1..])
  }

  function AfterToken(s: string): string { s[|Token(s)|..] }

  lemma DropSpacesShrinks(s: string)
    ensures |DropSpaces(s)| <= |s|
    ensures DropSpaces(s) == s[|s| - |DropSpaces(s)|..]
    ensures DropSpaces(s) != "" ==> DropSpaces(s)[0] != ' '
  {
  }

  function Params(s: string): seq<string>
    decreases |s|
  {
    DropSpacesShrinks(s);
    var t := DropSpaces(s);
    if t == "" then [] else if t[0] == ':' then [t[1..]] else [Token(t)] + Params(AfterToken(t))
  }

  function StripTerminator(line: string): string {
    if |line| >= 2 && line[|line| - 2] == '\r' && line[|line| - 1] == '\n' then line[..|line| - 2] else line
  }

  function UpperChar(c: char): char { if 'a' <= c <= 'z' then (c as int - 32) as char else c }

  function Upper(s: string): (r: string)
    ensures |r| == |s|
  {
    seq(|s|, i requires 0 <= i < |s| => UpperChar(s[i]))
  }

  function ParseCommand(prefix: string, s: string): Message {
    if s == "" then EMPTY else Message(prefix, Upper(Token(s)), Params(AfterToken(s)))
  }

  function ParseBody(input: string): Message {
    var s := DropSpaces(input);
    if s == "" || s[0] != ':' then ParseCommand("", s)
    else if AfterToken(s) == "" then EMPTY
    else ParseCommand(Token(s)[1..], DropSpaces(AfterToken(s)))
  }

  function Parse(line: string): Message { ParseBody(StripTerminator(line)) }

  // ----- The parser as the source runs it: a position moved through the input --------------

  method SkipSeparators(input: string, start: nat) returns (pos: nat)
    requires start <= |input|
    ensures start <= pos <= |input| && input[pos..] == DropSpaces(input[start..])
  {
    pos := start;
    while pos < |input| && input[pos] == ' '
      invariant start <= pos <= |input|
      invariant DropSpaces(input[pos..]) == DropSpaces(input[start..])
    {
      assert input[pos..][1..] == input[pos + 1..];
      pos := pos + 1;
    }
  }

  method ReadToken(input: string, start: nat) returns (token: string, pos: nat)
    requires start <= |input|
    ensures start <= pos <= |input| && token == Token(input[start..]) && input[pos..] == AfterToken(input[start..])
  {
    pos := start;
    while pos < |input| && input[pos] != ' '
      invariant start <= pos <= |input|
      invariant pos + |Token(input[pos..])| == start + |Token(input[start..])|
    {
      assert input[pos..][1..] == input[pos + 1..];
      pos := pos + 1;
    }
    token := input[start..pos];
    assert input[start..][..pos - start] == token && input[start..][pos - start..] == input[pos..];
  }

  method ReadPrefix(input: string) returns (ok: bool, pos: nat, prefix: string)
    ensures pos <= |input|
    ensures ParseBody(input) == if ok then ParseCommand(prefix, input[pos..]) else EMPTY
  {
    prefix := "";
    pos := SkipSeparators(input, 0);
    assert input[0..] == input;
    if pos >= |input| || input[pos] != ':' { return true, pos, prefix; }
    var word, end := ReadToken(input, pos);
    if end == |input| { return false, pos, prefix; }
    prefix := word[1..];
    pos := SkipSeparators(input, end);
    return true, pos, prefix;
  }

  method ReadParams(input: string, start: nat) returns (params: seq<string>)
    requires start <= |input|
    ensures params == Params(input[start..])
  {
    params := [];
    var pos := start;
    ghost var all := Params(input[start..]);
    while pos < |input|
      invariant start <= pos <= |input|
      invariant all == params + Params(input[pos..])
    {
      ghost var todo := input[pos..];
      DropSpacesShrinks(todo);
      pos := SkipSeparators(input, pos);
      if pos < |input| {
        assert input[pos] == DropSpaces(todo)[0];
        if input[pos] == ':' {
          assert input[pos..][1..] == input[pos + 1..];
          params, pos := params + [input[pos + 1..]], |input|;
        } else {
          var token, next := ReadToken(input, pos);
          TokenSpaceFree(input[pos..]);
          assert Params(todo) == [token] + Params(input[next..]);
          params, pos := params + [token], next;
        }
      }
    }
    assert Params(input[pos..]) == [];
  }

  method ParseLine(line: string) returns (msg: Message)
    ensures msg == Parse(line)
  {
    var input := StripTerminator(line);
    var ok, pos, prefix := ReadPrefix(input);
    if !ok || pos >= |input| { return EMPTY; }
    var command, next := ReadToken(input, pos);
    var params := ReadParams(input, next);
    return Message(prefix, Upper(command), params);
  }

  // ----- Printing ---------------------------------------------------------------------------

  function Spaced(words: seq<string>): string {
    if words == [] then "" else " " + words[0] + Spaced(words[1..])
  }

  function Tail(l: Line): string {
    Spaced(l.middles) + (if l.trailing.Some? then " :" + l.trailing.value else "")
  }

  function Body(l: Line): string {
    (if l.prefix == "" then "" else ":" + l.prefix + " ") + l.command + Tail(l)
  }

  function Render(l: Line): string { Body(l) + "\r\n" }

  function AllParams(l: Line): seq<string> {
    l.middles + if l.trailing.Some? then [l.trailing.value] else []
  }

  predicate SpaceFree(s: string) { ' ' !in s }

  predicate IsMiddle(s: string) { s != "" && s[0] != ':' && SpaceFree(s) }

  /** What the grammar asks of a printable line; the trailing parameter is arbitrary. */
  predicate WellFormed(l: Line) { GoodHead(l) && forall m <- l.middles :: IsMiddle(m) }

  predicate GoodHead(l: Line) {
    SpaceFree(l.prefix) && SpaceFree(l.command) && l.command != "" && !(l.prefix == "" && l.command[0] == ':')
  }

  lemma {:induction false} TokenOf(word: string, rest: string)
    requires SpaceFree(word) && (rest == "" || rest[0] == ' ')
    ensures Token(word + rest) == word && AfterToken(word + rest) == rest
  {
    if word == "" {
      assert word + rest == rest;
    } else {
      assert (word + rest)[1..] == word[1..] + rest;
      TokenOf(word[1..], rest);
      assert [word[0]] + word[1..] == word;
    }
  }

  lemma DropOneSpace(s: string)
    requires s == "" || s[0] != ' '
    ensures DropSpaces(" " + s) == s && DropSpaces(s) == s
  {
    assert (" " + s)[1..] == s;
  }

  lemma TailStart(l: Line)
    ensures Tail(l) == "" || Tail(l)[0] == ' '
  {
  }

  lemma FirstMiddle(l: Line)
    requires l.middles != [] && IsMiddle(l.middles[0])
    ensures var rest := l.(middles := l.middles[1..]);
            var t := DropSpaces(Tail(l));
            t == l.middles[0] + Tail(rest) && t[0] != ':' && Token(t) == l.middles[0] && AfterToken(t) == Tail(rest)
  {
    var m, rest := l.middles[0], l.(middles := l.middles[1..]);
    assert m[0] in m;
    assert Tail(l) == " " + (m + Tail(rest));
    DropOneSpace(m + Tail(rest));
    TailStart(rest);
    TokenOf(m, Tail(rest));
  }

  lemma {:induction false} ParamsOfTail(l: Line)
    requires forall m <- l.middles :: IsMiddle(m)
    ensures Params(Tail(l)) == AllParams(l)
    decreases |l.middles|
  {
    if l.middles == [] {
      if l.trailing.Some? {
        var t := ":" + l.trailing.value;
        assert Tail(l) == " " + t;
        DropOneSpace(t);
        assert t[1..] == l.trailing.value;
      }
    } else {
      var rest := l.(middles := l.middles[1..]);
      var m := l.middles[0];
      FirstMiddle(l);
      ParamsOfTail(rest);
      assert AllParams(l) == [m] + AllParams(rest);
    }
  }

  lemma PrefixRead(prefix: string, rest: string)
    requires SpaceFree(prefix) && rest != "" && rest[0] != ' '
    ensures ParseBody((":" + prefix) + (" " + rest)) == ParseCommand(prefix, rest)
  {
    var word := ":" + prefix;
    var all := word + (" " + rest);
    TokenOf(word, " " + rest);
    assert word[1..] == prefix;
    assert DropSpaces(all) == all;
    DropOneSpace(rest);
  }

  lemma ReadHead(l: Line)
    requires GoodHead(l)
    ensures ParseBody(Body(l)) == ParseCommand(l.prefix, l.command + Tail(l))
  {
    var rest := l.command + Tail(l);
    assert rest[0] == l.command[0] && l.command[0] in l.command;
    if l.prefix == "" {
      DropOneSpace(rest);
      assert Body(l) == rest;
    } else {
      assert Body(l) == (":" + l.prefix) + (" " + rest);
      PrefixRead(l.prefix, rest);
    }
  }

  lemma ReadCommand(l: Line)
    requires GoodHead(l)
    ensures ParseCommand(l.prefix, l.command + Tail(l)) == Message(l.prefix, Upper(l.command), Params(Tail(l)))
  {
    TailStart(l);
    TokenOf(l.command, Tail(l));
  }

  /** Whatever the parameters look like, prefix and command are read back. */
  lemma ParseOfHead(l: Line)
    requires GoodHead(l)
    ensures ParseBody(Body(l)) == Message(l.prefix, Upper(l.command), Params(Tail(l)))
    ensures Parse(Render(l)) == ParseBody(Body(l))
  {
    ReadHead(l);
    ReadCommand(l);
    assert StripTerminator(Render(l)) == Body(l);
  }

  /** Parsing undoes printing, with or without the terminator. */
  lemma ParseOfRender(l: Line)
    requires WellFormed(l)
    ensures Parse(Render(l)) == Message(l.prefix, Upper(l.command), AllParams(l))
    ensures ParseBody(Body(l)) == Parse(Render(l))
  {
    ParseOfHead(l);
    ParamsOfTail(l);
  }

  // ----- Printing what was parsed -----------------------------------------------------------

  function Reprint(m: Message): Line {
    if m.params == [] then Line(m.prefix, m.command, [], None)
    else Line(m.prefix, m.command, m.params[..|m.params| - 1], Some(m.params[|m.params| - 1]))
  }

  lemma {:induction false} TokenSpaceFree(s: string)
    ensures SpaceFree(Token(s))
    ensures s != "" && s[0] != ' ' ==> Token(s) != "" && Token(s)[0] == s[0]
  {
    if s != "" && s[0] != ' ' { TokenSpaceFree(s[1..]); }
  }

  /** All parameters but the last are middles; none is longer than the text it came from. */
  lemma {:induction false} ParamsShape(s: string)
    ensures Params(s) != [] ==> forall m <- Params(s)[..|Params(s)| - 1] :: IsMiddle(m)
    ensures forall p <- Params(s) :: |p| <= |s|
    ensures s != "" && s[0] == ' ' ==> forall p <- Params(s) :: |p| < |s|
    decreases |s|
  {
    DropSpacesShrinks(s);
    var t := DropSpaces(s);
    if t != "" && t[0] != ':' {
      TokenSpaceFree(t);
      ParamsShape(AfterToken(t));
      var rest := Params(AfterToken(t));
      if rest != [] {
        assert Params(s)[..|Params(s)| - 1] == [Token(t)] + rest[..|rest| - 1];
      }
    }
  }

  lemma UpperFacts(s: string)
    ensures Upper(Upper(s)) == Upper(s)
    ensures SpaceFree(s) ==> SpaceFree(Upper(s))
    ensures s != "" ==> (Upper(s)[0] == ':' <==> s[0] == ':')
    ensures '\n' !in s ==> '\n' !in Upper(s)
  {
  }

  lemma ParseEmpty(line: string)
    ensures Parse(line).command == "" ==> Parse(line) == EMPTY
  {
    var s := DropSpaces(StripTerminator(line));
    DropSpacesShrinks(StripTerminator(line));
    if s != "" && s[0] == ':' {
      DropSpacesShrinks(AfterToken(s));
      s := DropSpaces(AfterToken(s));
    }
    TokenSpaceFree(s);
  }

  lemma ParsedShape(line: string)
    requires Parse(line).command != ""
    ensures SpaceFree(Parse(line).prefix) && SpaceFree(Parse(line).command)
    ensures Upper(Parse(line).command) == Parse(line).command
    ensures forall m <- Reprint(Parse(line)).middles :: IsMiddle(m)
  {
    var input := StripTerminator(line);
    var s := DropSpaces(input);
    DropSpacesShrinks(input);
    if s != "" && s[0] == ':' {
      TokenSpaceFree(s);
      s := DropSpaces(AfterToken(s));
    }
    TokenSpaceFree(s);
    UpperFacts(Token(s));
    ParamsShape(AfterToken(s));
  }

  /** Printing a parsed message and parsing it again gives the same message exactly when the
      command could not be mistaken for a prefix. */
  lemma ReparseIffUnambiguous(line: string)
    requires Parse(line).command != ""
    ensures var m := Parse(line);
            Parse(Render(Reprint(m))) == m <==> !(m.prefix == "" && m.command[0] == ':')
  {
    var m := Parse(line);
    var l := Reprint(m);
    ParsedShape(line);
    ReprintParams(m);
    Unterminated(l);
    if m.prefix == "" && m.command[0] == ':' {
      ReparseMistakesCommand(l);
    } else {
      ParseOfRender(l);
    }
  }

  lemma {:induction false} ReprintParams(m: Message)
    ensures AllParams(Reprint(m)) == m.params && Reprint(m).prefix == m.prefix && Reprint(m).command == m.command
  {
    if m.params != [] { CutInTwo(m.params, |m.params| - 1); }
  }

  lemma {:induction false} Unterminated(l: Line)
    ensures Parse(Render(l)) == ParseBody(Body(l))
  {
    assert StripTerminator(Render(l)) == Body(l);
  }

  lemma ReparseMistakesCommand(l: Line)
    requires SpaceFree(l.command) && l.prefix == "" && l.command != "" && l.command[0] == ':'
    requires forall m <- l.middles :: IsMiddle(m)
    ensures ParseBody(Body(l)) != Message(l.prefix, l.command, AllParams(l))
  {
    TailStart(l);
    TokenOf(l.command, Tail(l));
    assert Body(l) == l.command + Tail(l);
    assert DropSpaces(Body(l)) == Body(l);
    if l.command == ":" && Tail(l) != "" { ReparseBareColon(l); }
  }

  lemma ReparseBareColon(l: Line)
    requires forall m <- l.middles :: IsMiddle(m)
    requires Tail(l) != ""
    ensures var again := ParseCommand("", DropSpaces(Tail(l)));
            again.command != ":" || again.params != AllParams(l)
  {
    if l.middles == [] {
      var t := ":" + l.trailing.value;
      assert Tail(l) == " " + t;
      DropOneSpace(t);
      if Upper(Token(t)) == ":" {
        var last := l.trailing.value;
        assert t[1..] == last;
        assert |Token(t)| == 1 && Token(last) == "";
        assert AfterToken(t) == last;
        ParamsShape(last);
        assert Params(last) == [last] ==> last in Params(last);
      }
    } else {
      assert l.middles[0] in l.middles;
      FirstMiddle(l);
      UpperFacts(l.middles[0]);
    }
  }

  /** The ambiguity is real: this line parses, but its reprint does not parse back. */
  lemma AmbiguousCommand()
    ensures Parse(": :X").command == ":X" && Parse(": :X").prefix == ""
    ensures Parse(Render(Reprint(Parse(": :X")))) != Parse(": :X")
  {
    var line := ": :X";
    assert StripTerminator(line) == line && DropSpaces(line) == line;
    TokenOf(":", " :X");
    assert line == ":" + " :X";
    assert " :X"[1..] == ":X" && DropSpaces(" :X") == ":X";
    assert ":X" == ":X" + "";
    TokenOf(":X", "");
    assert Upper(":X") == ":X";
    ReparseIffUnambiguous(line);
  }

  // ----- Newline-free text ------------------------------------------------------------------

  predicate NoNewline(s: string) { '\n' !in s }

  predicate CleanLine(l: Line) {
    NoNewline(l.prefix) && NoNewline(l.command) && (forall m <- l.middles :: NoNewline(m)) &&
    (l.trailing.Some? ==> NoNewline(l.trailing.value))
  }

  lemma {:induction false} SpacedClean(words: seq<string>)
    requires forall w <- words :: NoNewline(w)
    ensures NoNewline(Spaced(words))
  {
    if words != [] {
      assert words[0] in words;
      SpacedClean(words[1..]);
    }
  }

  lemma BodyClean(l: Line)
    requires CleanLine(l)
    ensures NoNewline(Body(l))
  {
    SpacedClean(l.middles);
  }

  predicate CleanMessage(m: Message) {
    NoNewline(m.prefix) && NoNewline(m.command) && forall p <- m.params :: NoNewline(p)
  }

  lemma {:induction false} ParamsClean(s: string)
    requires NoNewline(s)
    ensures forall p <- Params(s) :: NoNewline(p)
    decreases |s|
  {
    DropSpacesShrinks(s);
    var t := DropSpaces(s);
    if t != "" && t[0] != ':' { ParamsClean(AfterToken(t)); }
  }

  /** What blanks and tokens leave of a newline-free text holds no newline. */
  lemma {:induction false} PartsClean(s: string)
    requires NoNewline(s)
    ensures NoNewline(DropSpaces(s)) && NoNewline(Token(s)) && NoNewline(AfterToken(s))
  {
    DropSpacesShrinks(s);
  }

  lemma {:induction false} CommandClean(prefix: string, s: string)
    requires NoNewline(prefix) && NoNewline(s)
    ensures CleanMessage(ParseCommand(prefix, s))
  {
    PartsClean(s);
    UpperFacts(Token(s));
    ParamsClean(AfterToken(s));
  }

  /** A message parsed from a newline-free line holds no newline. */
  lemma {:induction false} ParseClean(line: string)
    requires NoNewline(line)
    ensures CleanMessage(Parse(line))
  {
    PartsClean(line);
    var s := DropSpaces(line);
    PartsClean(s);
    PartsClean(AfterToken(s));
    CommandClean("", s);
    if s != "" && s[0] == ':' { CommandClean(Token(s)[1..], DropSpaces(AfterToken(s))); }
  }
}
