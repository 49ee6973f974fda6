/** Case folding, the map comparator and the name validators of the server (src/c/Utils.cpp). */
module IrcText {

  function ToLower(c: char): char {
    if 'A' <= c <= 'Z' then (c as int + 32) as char
    else if c == '[' then '{'
    else if c == ']' then '}'
    else if c == '\\' then '|'
    else if c == '~' then '^'
    else c
  }

  /** The case-folded spelling of a name: what two nicknames or channel names are compared by. */
  function Fold(s: string): (r: string)
    ensures |r| == |s|
  {
    seq(|s|, i requires 0 <= i < |s| => ToLower(s[i]))
  }

  /** `char` is signed on the platforms the server targets: bytes 128..255 compare below 0. */
  function Rank(c: char): int {
    if 128 <= c as int < 256 then c as int - 256 else c as int
  }

  /** Lexicographic order of the folded spellings. */
  predicate Less(a: string, b: string) {
    b != "" &&
    (a == "" ||
     Rank(ToLower(a[0])) < Rank(ToLower(b[0])) ||
     (ToLower(a[0]) == ToLower(b[0]) && Less(a[1..], b[1..])))
  }

  /** The comparator of the nickname and channel maps. */
  method IrcStringCompare(a: string, b: string) returns (less: bool)
    ensures less <==> Less(a, b)
  {
    var len := if |a| < |b| then |a| else |b|;
    for i := 0 to len
      invariant Less(a, b) <==> Less(a[i..], b[i..])
    {
      var lowerA, lowerB := ToLower(a[i]), ToLower(b[i]);
      if Rank(lowerA) < Rank(lowerB) { return true; }
      if Rank(lowerA) > Rank(lowerB) { return false; }
      RankInjective(lowerA, lowerB);
      assert a[i..][1..] == a[i + 1..] && b[i..][1..] == b[i + 1..];
    }
    return |a| < |b|;
  }

  lemma RankInjective(c: char, d: char)
    ensures Rank(c) == Rank(d) ==> c == d
  {
    assert c as int == d as int ==> c == d;
  }

  lemma FoldTail(a: string)
    requires a != ""
    ensures Fold(a)[0] == ToLower(a[0]) && Fold(a)[1..] == Fold(a[1..])
  {
  }

  /** The comparator's equivalence is exactly equality after folding, so a map keyed by
      folded strings is the map the comparator induces. */
  lemma {:induction false} EquivalenceIsFoldEquality(a: string, b: string)
    ensures !Less(a, b) && !Less(b, a) <==> Fold(a) == Fold(b)
  {
    if a == "" || b == "" {
      assert Fold(a) == Fold(b) <==> |a| == |b| by { if |a| == |b| { assert Fold(a) == "" == Fold(b); } }
    } else {
      FoldTail(a);
      FoldTail(b);
      RankInjective(ToLower(a[0]), ToLower(b[0]));
      EquivalenceIsFoldEquality(a[1..], b[1..]);
      assert Fold(a) == [Fold(a)[0]] + Fold(a)[1..] && Fold(b) == [Fold(b)[0]] + Fold(b)[1..];
    }
  }

  // ----- What folding means, letter by letter -----------------------------------------------

  /** `upper` and `lower` are the two cases of one letter; to the protocol, [ ] \ ~ are the upper
      cases of { } | ^. */
  predicate TwoCases(upper: char, lower: char) {
    ('A' <= upper <= 'Z' && lower as int == upper as int + 32) ||
    (upper, lower) in {('[', '{'), (']', '}'), ('\\', '|'), ('~', '^')}
  }

  predicate SameLetter(c: char, d: char) { c == d || TwoCases(c, d) || TwoCases(d, c) }

  /** The same name, but for the case of its letters. */
  predicate SameName(a: string, b: string) { |a| == |b| && forall i :: 0 <= i < |a| ==> SameLetter(a[i], b[i]) }

  lemma {:induction false} LettersFold(c: char, d: char)
    ensures ToLower(c) == ToLower(d) <==> SameLetter(c, d)
  {
  }

  lemma {:induction false} NamesFold(a: string, b: string)
    ensures Fold(a) == Fold(b) <==> SameName(a, b)
  {
    forall i | 0 <= i < |a| && i < |b| ensures Fold(a)[i] == Fold(b)[i] <==> SameLetter(a[i], b[i]) {
      LettersFold(a[i], b[i]);
    }
  }

  /** Neither of two names comes before the other exactly when they are the same letter by letter. */
  lemma {:induction false} EquivalenceIsSameName(a: string, b: string)
    ensures !Less(a, b) && !Less(b, a) <==> SameName(a, b)
  {
    EquivalenceIsFoldEquality(a, b);
    NamesFold(a, b);
  }

  /** A strict weak order needs transitivity; together with `EquivalenceIsFoldEquality`
      (equivalence is an equality, hence transitive, and `Less(a, a)` never holds) this is all of it. */
  lemma {:induction false} LessTransitive(a: string, b: string, c: string)
    requires Less(a, b) && Less(b, c)
    ensures Less(a, c)
  {
    if a != "" {
      if ToLower(a[0]) == ToLower(b[0]) && Less(a[1..], b[1..]) {
        if ToLower(b[0]) == ToLower(c[0]) && Less(b[1..], c[1..]) {
          LessTransitive(a[1..], b[1..], c[1..]);
        } else {
          LessAsymmetric(a[1..], b[1..]);
        }
      }
    }
  }

  lemma {:induction false} LessAsymmetric(a: string, b: string)
    requires Less(a, b)
    ensures !Less(b, a)
  {
    if a != "" && ToLower(a[0]) == ToLower(b[0]) && Less(a[1..], b[1..]) {
      LessAsymmetric(a[1..], b[1..]);
    }
  }

  predicate IsLetter(c: char) { 'A' <= c <= 'Z' || 'a' <= c <= 'z' }

  predicate IsDigit(c: char) { '0' <= c <= '9' }

  predicate IsSpecial(c: char) { '[' <= c <= '`' || '{' <= c <= '}' }

  predicate IsNicknameChar(c: char) { IsLetter(c) || IsDigit(c) || IsSpecial(c) || c == '-' }

  predicate IsChannelChar(c: char) {
    c != '\0' && c != '\U{7}' && c != '\r' && c != '\n' && c != ' ' && c != ',' && c != ':'
  }

  predicate ValidNick(name: string) {
    0 < |name| <= 9 && !IsDigit(name[0]) && name[0] != '-' && forall c <- name :: IsNicknameChar(c)
  }

  predicate ValidChannel(name: string) {
    2 <= |name| && name[0] == '#' && forall c <- name[1..] :: IsChannelChar(c)
  }

  method IsValidNickname(name: string) returns (ok: bool)
    ensures ok <==> ValidNick(name)
  {
    if name == "" || |name| > 9 { return false; }
    if !IsLetter(name[0]) && !IsSpecial(name[0]) { assert name[0] in name; return false; }
    for i := 1 to |name|
      invariant forall c <- name[..i] :: IsNicknameChar(c)
    {
      if !IsNicknameChar(name[i]) { return false; }
      assert name[..i + 1] == name[..i] + [name[i]];
    }
    assert name[..|name|] == name;
    return true;
  }

  method IsValidChannelName(name: string) returns (ok: bool)
    ensures ok <==> ValidChannel(name)
  {
    if |name| < 2 || name[0] != '#' { return false; }
    for i := 1 to |name|
      invariant forall c <- name[1..i] :: IsChannelChar(c)
    {
      if !IsChannelChar(name[i]) { assert name[i] == name[1..][i - 1]; return false; }
      assert name[1..i + 1] == name[1..i] + [name[i]];
    }
    assert name[1..|name|] == name[1..];
    return true;
  }

  const CAPITALS := "ABCDEFGHIJKLMNOPQRSTUVWXYZ"
  const SMALL := "abcdefghijklmnopqrstuvwxyz"
  const DIGITS := "0123456789"
  const SPECIALS := "[]\\`_^{|}"

  lemma {:induction false} Characters(c: char)
    ensures IsLetter(c) <==> c in CAPITALS || c in SMALL
    ensures IsDigit(c) <==> c in DIGITS
    ensures IsSpecial(c) <==> c in SPECIALS
  {
  }

  /** The nicknames of section 2.3.1 of RFC 2812, with the characters spelled out. */
  lemma {:induction false} NicknameSpelling(name: string)
    ensures ValidNick(name) <==>
            1 <= |name| <= 9 && (name[0] in CAPITALS || name[0] in SMALL || name[0] in SPECIALS) &&
            forall c <- name[1..] :: c in CAPITALS || c in SMALL || c in DIGITS || c in SPECIALS || c == '-'
  {
    if name != "" {
      forall c | c in name
        ensures IsNicknameChar(c) <==> c in CAPITALS || c in SMALL || c in DIGITS || c in SPECIALS || c == '-'
      {
        Characters(c);
      }
      Characters(name[0]);
      assert name == [name[0]] + name[1..];
    }
  }

  /** A channel name is a hash sign and at least one more character, with seven characters barred. */
  lemma {:induction false} ChannelSpelling(name: string)
    ensures ValidChannel(name) <==>
            |name| >= 2 && name[0] == '#' &&
            forall bad <- {'\0', '\U{7}', '\r', '\n', ' ', ',', ':'} :: bad !in name[1..]
  {
    assert forall c :: IsChannelChar(c) <==> c !in {'\0', '\U{7}', '\r', '\n', ' ', ',', ':'};
  }

  /** A valid nickname can stand in a prefix or as a middle parameter. */
  lemma NickIsPlain(name: string)
    requires ValidNick(name)
    ensures forall c <- name :: c != ' ' && c != '\n' && c != '\r' && c != '!' && c != '@' && c != ':' && c != '#'
  {
  }

  lemma ChannelIsPlain(name: string)
    requires ValidChannel(name)
    ensures forall c <- name :: c != ' ' && c != '\n' && c != '\r' && c != ':'
  {
    assert name == [name[0]] + name[1..];
  }
}
