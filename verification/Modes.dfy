/** Channel modes (src/c/ChannelModes.cpp), the limit argument of MODE +l and the reply to a mode
    query (src/b/ChannelCommandHandler.cpp). */
module Modes {
  import opened Wire

  const INT_MAX := 0x7fff_ffff

  /** `limit` is -1 when there is none; `key` is empty when there is none. */
  datatype ChannelModes = ChannelModes(
    inviteOnly: bool, topicRestricted: bool, hasKey: bool, key: string, limit: int)
  {
    predicate Valid() {
      (limit == -1 || 1 <= limit <= INT_MAX) && (!hasKey ==> key == "")
    }
  }

  const NO_MODES := ChannelModes(false, false, false, "", -1)

  // ----- Decimal numbers --------------------------------------------------------------------

  function Digit(n: nat): char
    requires n < 10
  {
    (n + '0' as int) as char
  }

  predicate AllDigits(s: string) { forall i :: 0 <= i < |s| ==> '0' <= s[i] <= '9' }

  function Digits(n: nat): (s: string)
    ensures s != "" && AllDigits(s)
  {
    if n < 10 then [Digit(n)] else Digits(n / 10) + [Digit(n % 10)]
  }

  /** What `operator<<` prints for an integer. */
  function Decimal(n: int): string { if n < 0 then "-" + Digits(-n) else Digits(n) }

  function Value(s: string): nat
    requires AllDigits(s)
  {
    if s == "" then 0 else 10 * Value(s[..|s| - 1]) + (s[|s| - 1] as int - '0' as int)
  }

  lemma {:induction false} ValueOfDigits(n: nat)
    ensures Value(Digits(n)) == n
  {
    if n >= 10 {
      ValueOfDigits(n / 10);
      assert Digits(n)[..|Digits(n)| - 1] == Digits(n / 10);
    } else {
      assert Digits(n)[..0] == "";
    }
  }

  // ----- The limit argument -----------------------------------------------------------------

  predicate IsBlank(c: char) { c == ' ' || '\t' <= c <= '\r' }

  lemma {:induction false} Blanks(c: char)
    ensures IsBlank(c) <==> c in {' ', '\t', '\n', '\U{b}', '\U{c}', '\r'}
  {
  }

  function DropBlanks(s: string): string {
    if s != "" && IsBlank(s[0]) then DropBlanks(s[1..]) else s
  }

  /** The characters a C function sees: everything before the first NUL. */
  function CString(s: string): string {
    if s == "" || s[0] == '\0' then "" else [s[0]] + CString(s[1..])
  }

  lemma {:induction false} CStringEnds(s: string)
    ensures CString(s) <= s && '\0' !in CString(s)
    ensures |CString(s)| < |s| ==> s[|CString(s)|] == '\0'
  {
    if s != "" && s[0] != '\0' { CStringEnds(s[1..]); }
  }

  function DigitRun(s: string): (n: nat)
    ensures n <= |s| && AllDigits(s[..n]) && (n < |s| ==> !('0' <= s[n] <= '9'))
  {
    if s != "" && '0' <= s[0] <= '9' then 1 + DigitRun(s[1..]) else 0
  }

  /** `strtol(s, &end, 10)`: the number read and the text at `end`. The result is not cut at
      LONG_MAX: the caller rejects everything above INT_MAX anyway. */
  function Strtol(s: string): (int, string) {
    var t := DropBlanks(CString(s));
    var (magnitude, end) := ReadDigits(AfterSign(t));
    if end == AfterSign(t) then (0, CString(s))
    else (if t[0] == '-' then -magnitude else magnitude, end)
  }

  function AfterSign(t: string): string { if t != "" && (t[0] == '-' || t[0] == '+') then t[1..] else t }

  /** The number at the start of `s` and what follows it. */
  function ReadDigits(s: string): (r: (int, string))
    ensures r.1 != s ==> s != ""
  {
    (Value(s[..DigitRun(s)]), s[DigitRun(s)..])
  }

  lemma {:induction false} ReadAllDigits(s: string)
    requires AllDigits(s)
    ensures ReadDigits(s) == (Value(s), "")
  {
    CStringOfDigits(s);
    assert s[..|s|] == s && s[|s|..] == "";
  }

  function ParsePositiveLimit(value: string): (limit: Option<int>)
    ensures limit.Some? ==> 1 <= limit.value <= INT_MAX
  {
    if value == "" then None
    else
      var (parsed, end) := Strtol(value);
      if end != "" || parsed < 1 || parsed > INT_MAX then None else Some(parsed)
  }

  /** `t` is blanks, at most a plus sign, and then the digits of `n` to the end. */
  ghost predicate Spells(t: string, n: int) {
    exists i: nat, j: nat :: i <= j <= |t| && SpellsAt(t, i, j, n)
  }

  predicate SpellsAt(t: string, i: nat, j: nat, n: int)
    requires i <= j <= |t|
  {
    (forall c <- t[..i] :: IsBlank(c)) && (t[i..j] == "" || t[i..j] == "+") &&
    t[j..] != "" && AllDigits(t[j..]) && Value(t[j..]) == n
  }

  lemma {:induction false} DropBlanksSplits(s: string)
    ensures |DropBlanks(s)| <= |s| && DropBlanks(s) == s[|s| - |DropBlanks(s)|..]
    ensures forall c <- s[..|s| - |DropBlanks(s)|] :: IsBlank(c)
  {
    if s != "" && IsBlank(s[0]) {
      DropBlanksSplits(s[1..]);
      var n := |s| - |DropBlanks(s)|;
      assert s[..n] == [s[0]] + s[1..][..n - 1];
    }
  }

  lemma {:induction false} DropBlanksOf(s: string, i: nat)
    requires i < |s| && !IsBlank(s[i]) && forall c <- s[..i] :: IsBlank(c)
    ensures DropBlanks(s) == s[i..]
  {
    if i > 0 {
      assert s[0] in s[..i];
      assert forall c <- s[1..][..i - 1] :: c in s[..i];
      DropBlanksOf(s[1..], i - 1);
    }
  }

  lemma {:induction false} AcceptedSpells(value: string, n: int)
    requires ParsePositiveLimit(value) == Some(n)
    ensures Spells(CString(value), n)
  {
    var t := CString(value);
    DropBlanksSplits(t);
    var i := |t| - |DropBlanks(t)|;
    var j := if t[i] == '+' then i + 1 else i;
    var unsigned := AfterSign(t[i..]);
    assert t[i] != '-' && unsigned == t[j..];
    assert unsigned[..DigitRun(unsigned)] == unsigned;
    assert t[i..j] == "" || t[i..j] == "+";
    assert SpellsAt(t, i, j, n);
  }

  lemma {:induction false} SpelledAccepted(value: string, i: nat, j: nat, n: int)
    requires i <= j <= |CString(value)| && SpellsAt(CString(value), i, j, n) && 1 <= n <= INT_MAX
    ensures ParsePositiveLimit(value) == Some(n)
  {
    var t := CString(value);
    SpelledStart(t, i, j, n);
    DropBlanksOf(t, i);
    StrtolOf(value, t[i..], t[i..j], t[j..]);
    assert value != "";
  }

  lemma {:induction false} SpelledStart(t: string, i: nat, j: nat, n: int)
    requires i <= j <= |t| && SpellsAt(t, i, j, n)
    ensures i < |t| && !IsBlank(t[i]) && t[i..] == t[i..j] + t[j..]
  {
    if i < j {
      assert t[i..j][0] == t[i];
    } else {
      assert t[j..][0] == t[i] && t[j..][0] in t[j..];
    }
  }

  lemma {:induction false} StrtolOf(value: string, signed: string, sign: string, digits: string)
    requires signed == DropBlanks(CString(value)) == sign + digits && (sign == "" || sign == "+")
    requires digits != "" && AllDigits(digits)
    ensures Strtol(value) == (Value(digits), "")
  {
    ReadAllDigits(digits);
    assert AfterSign(signed) == digits by {
      assert digits[0] in digits;
      if sign == "" { assert signed == digits; } else { assert signed[0] == '+' && signed[1..] == digits; }
    }
    assert signed[0] != '-' by { assert digits[0] in digits; }
  }

  /** The limit argument is accepted as `n` exactly when its text, up to a NUL, spells `n` and `n` is
      in 1..INT_MAX. */
  lemma {:induction false} LimitAcceptedIff(value: string, n: int)
    ensures ParsePositiveLimit(value) == Some(n) <==> 1 <= n <= INT_MAX && Spells(CString(value), n)
  {
    if ParsePositiveLimit(value) == Some(n) { AcceptedSpells(value, n); }
    if 1 <= n <= INT_MAX && Spells(CString(value), n) {
      var i: nat, j: nat :| i <= j <= |CString(value)| && SpellsAt(CString(value), i, j, n);
      SpelledAccepted(value, i, j, n);
    }
  }

  lemma {:induction false} CStringOfDigits(s: string)
    requires AllDigits(s)
    ensures CString(s) == s && DigitRun(s) == |s|
  {
    if s != "" { CStringOfDigits(s[1..]); }
  }

  /** Reading the limit inverts printing it, on the whole range. */
  lemma LimitRoundTrip(limit: int)
    requires 1 <= limit <= INT_MAX
    ensures ParsePositiveLimit(Decimal(limit)) == Some(limit)
  {
    ValueOfDigits(limit);
    DigitsAccepted(Digits(limit));
  }

  lemma {:induction false} DigitsAccepted(s: string)
    requires s != "" && AllDigits(s) && 1 <= Value(s) <= INT_MAX
    ensures ParsePositiveLimit(s) == Some(Value(s))
  {
    CStringOfDigits(s);
    assert s[0..] == s && s[..0] == s[0..0] == "";
    SpelledAccepted(s, 0, 0, Value(s));
  }

  // ----- Mode changes and the mode query ----------------------------------------------------

  /** One change of i, t, k or l; None when the argument is missing or no positive number. */
  function Change(m: ChannelModes, adding: bool, mode: char, arg: Option<string>): Option<ChannelModes> {
    match mode
    case 'i' => Some(m.(inviteOnly := adding))
    case 't' => Some(m.(topicRestricted := adding))
    case 'k' =>
      if !adding then Some(m.(hasKey := false, key := ""))
      else if arg.None? then None
      else Some(m.(hasKey := true, key := arg.value))
    case 'l' =>
      if !adding then Some(m.(limit := -1))
      else if arg.None? then None
      else (match ParsePositiveLimit(arg.value) case None => None case Some(n) => Some(m.(limit := n)))
    case _ => None
  }

  lemma ChangeValid(m: ChannelModes, adding: bool, mode: char, arg: Option<string>)
    requires m.Valid()
    ensures var r := Change(m, adding, mode, arg); r.Some? ==> r.value.Valid()
  {
  }

  /** The mode is not set. */
  predicate Off(m: ChannelModes, mode: char) {
    match mode
    case 'i' => !m.inviteOnly
    case 't' => !m.topicRestricted
    case 'k' => !m.hasKey
    case _ => m.limit == -1
  }

  /** Setting a mode turns it on and unsetting it gives back exactly the modes from before; an
      argument is refused only where one is needed and is missing or no positive number. */
  lemma MinusUndoesPlus(m: ChannelModes, mode: char, arg: Option<string>)
    requires m.Valid() && mode in "itkl" && Off(m, mode)
    ensures var after := Change(m, true, mode, arg);
            if after.Some? then !Off(after.value, mode) && Change(after.value, false, mode, None) == Some(m)
            else mode in "kl" && (arg.None? || (mode == 'l' && ParsePositiveLimit(arg.value).None?))
  {
  }

  function Letters(m: ChannelModes): string {
    (if m.inviteOnly then "i" else "") + (if m.topicRestricted then "t" else "") +
    (if m.hasKey then "k" else "") + (if m.limit >= 0 then "l" else "")
  }

  /** The arguments the letters call for. */
  function Arguments(m: ChannelModes): seq<string> {
    (if m.hasKey then [m.key] else []) + (if m.limit >= 0 then [Decimal(m.limit)] else [])
  }

  /** The argument text as the query builds it: a separator only after non-empty text. */
  function ArgumentText(m: ChannelModes): string {
    var key := if m.hasKey then m.key else "";
    if m.limit < 0 then key else if key == "" then Decimal(m.limit) else key + " " + Decimal(m.limit)
  }

  method BuildChannelModeQuery(m: ChannelModes) returns (modes: string, args: string)
    ensures modes == "+" + Letters(m) && args == ArgumentText(m)
  {
    modes, args := "+", "";
    if m.inviteOnly { modes := modes + "i"; }
    if m.topicRestricted { modes := modes + "t"; }
    if m.hasKey {
      modes := modes + "k";
      args := if args != "" then args + " " + m.key else args + m.key;
    }
    assert args == if m.hasKey then m.key else "";
    if m.limit >= 0 {
      modes := modes + "l";
      args := if args != "" then args + " " + Decimal(m.limit) else args + Decimal(m.limit);
    }
    FlagsBuilt(if m.inviteOnly then "i" else "", if m.topicRestricted then "t" else "", if m.hasKey then "k" else "",
      if m.limit >= 0 then "l" else "");
  }

  lemma {:induction false} FlagsBuilt(i: string, t: string, k: string, l: string)
    ensures "+" + (i + t + k + l) == (if l == "" then "+" + i + t + k else "+" + i + t + k + l)
    ensures k == "" ==> "+" + i + t + k == "+" + i + t
    ensures t == "" ==> "+" + i + t == "+" + i
    ensures i == "" ==> "+" + i == "+"
  {
  }

  /** One `MODE +x [arg]` per letter, in order. */
  function Replay(m: ChannelModes, letters: string, args: seq<string>): Option<ChannelModes>
    decreases |letters|
  {
    if letters == "" then (if args == [] then Some(m) else None)
    else
      var takes := letters[0] == 'k' || letters[0] == 'l';
      var arg := if takes && args != [] then Some(args[0]) else None;
      match Change(m, true, letters[0], arg)
      case None => None
      case Some(m') => Replay(m', letters[1..], if takes then args[1..] else args)
  }

  lemma {:induction false} ReplayLimit(before: ChannelModes, m: ChannelModes, l: string, args: seq<string>)
    requires m.Valid() && before == m.(limit := -1)
    requires l == (if m.limit >= 0 then "l" else "") && args == if m.limit >= 0 then [Decimal(m.limit)] else []
    ensures Replay(before, l, args) == Some(m)
  {
    if m.limit >= 0 {
      LimitRoundTrip(m.limit);
      assert Replay(m, l[1..], args[1..]) == Some(m);
    }
  }

  /** Replaying the queried modes on a fresh channel rebuilds them. */
  lemma ReplayRebuilds(m: ChannelModes)
    requires m.Valid()
    ensures Replay(NO_MODES, Letters(m), Arguments(m)) == Some(m)
  {
    var l := if m.limit >= 0 then "l" else "";
    var k := if m.hasKey then "k" else "";
    var t := if m.topicRestricted then "t" else "";
    var afterT := NO_MODES.(inviteOnly := m.inviteOnly, topicRestricted := m.topicRestricted);
    var afterK := afterT.(hasKey := m.hasKey, key := m.key);
    var limitArg := if m.limit >= 0 then [Decimal(m.limit)] else [];
    ReplayLimit(afterK, m, l, limitArg);
    assert Replay(afterT, k + l, Arguments(m)) == Some(m) by {
      if m.hasKey {
        assert (k + l)[1..] == l && Arguments(m)[1..] == limitArg;
      } else {
        assert k + l == l;
      }
    }
    var afterI := NO_MODES.(inviteOnly := m.inviteOnly);
    assert Replay(afterI, t + k + l, Arguments(m)) == Some(m) by {
      assert t + k + l == t + (k + l);
      if m.topicRestricted { assert (t + k + l)[1..] == k + l; } else { assert t + k + l == k + l; }
    }
    if m.inviteOnly {
      assert Letters(m)[1..] == t + k + l;
    } else {
      assert Letters(m) == t + k + l;
    }
  }

  function ModeIsLine(target: string, channel: string, m: ChannelModes): Line {
    Line(SERVER_NAME, "324", [target, channel, "+" + Letters(m)] +
      (if ArgumentText(m) == "" then [] else [ArgumentText(m)]), None)
  }

  lemma DecimalIsMiddle(n: nat)
    ensures IsMiddle(Decimal(n))
  {
  }

  lemma LettersAreMiddle(m: ChannelModes)
    ensures IsMiddle("+" + Letters(m))
  {
  }

  /** A client reads back exactly the queried modes if and only if the key, when there is one,
      is fit to be a middle parameter: MODE +k accepts other keys, and for those the line is
      ambiguous on the wire. */
  lemma QueryFaithfulIff(target: string, channel: string, m: ChannelModes)
    requires m.Valid() && IsMiddle(target) && IsMiddle(channel)
    ensures var back := Parse(Render(ModeIsLine(target, channel, m)));
            back.params == [target, channel, "+" + Letters(m)] + Arguments(m)
            <==> (m.hasKey ==> IsMiddle(m.key))
  {
    var head := [target, channel, "+" + Letters(m)];
    var args := if ArgumentText(m) == "" then "" else " " + ArgumentText(m);
    ModeLineParams(target, channel, m, head, args);
    ArgumentsReadBack(m);
    assert (head + Params(args))[3..] == Params(args) && (head + Arguments(m))[3..] == Arguments(m);
  }

  lemma {:induction false} ModeLineParams(target: string, channel: string, m: ChannelModes, head: seq<string>,
                                          args: string)
    requires IsMiddle(target) && IsMiddle(channel)
    requires head == [target, channel, "+" + Letters(m)]
    requires args == if ArgumentText(m) == "" then "" else " " + ArgumentText(m)
    ensures Parse(Render(ModeIsLine(target, channel, m))).params == head + Params(args)
  {
    var l := ModeIsLine(target, channel, m);
    ModeIsGoodHead(target, channel, m);
    ParseOfHead(l);
    ModeTail(head, ArgumentText(m), l);
    LettersAreMiddle(m);
    HeadIsMiddle(head);
    ParamsAfterHead(head, args);
  }

  lemma {:induction false} ModeIsGoodHead(target: string, channel: string, m: ChannelModes)
    ensures GoodHead(ModeIsLine(target, channel, m))
  {
  }

  lemma {:induction false} HeadIsMiddle(head: seq<string>)
    requires |head| == 3 && IsMiddle(head[0]) && IsMiddle(head[1]) && IsMiddle(head[2])
    ensures forall w <- head :: IsMiddle(w)
  {
    forall w | w in head ensures IsMiddle(w) {
      assert w == head[0] || w == head[1] || w == head[2];
    }
  }

  lemma {:induction false} ModeTail(head: seq<string>, text: string, l: Line)
    requires l.middles == head + (if text == "" then [] else [text]) && l.trailing == None
    ensures Tail(l) == Spaced(head) + if text == "" then "" else " " + text
  {
    if text == "" { assert l.middles == head; } else { SpacedAppend(head, text); }
  }

  lemma {:induction false} SpacedAppend(words: seq<string>, last: string)
    ensures Spaced(words + [last]) == Spaced(words) + (" " + last)
  {
    if words == [] {
      assert words + [last] == [last] && Spaced([last][1..]) == "";
    } else {
      assert (words + [last])[1..] == words[1..] + [last];
      SpacedAppend(words[1..], last);
    }
  }

  lemma {:induction false} ParamsAfterHead(head: seq<string>, args: string)
    requires forall w <- head :: IsMiddle(w)
    requires args == "" || args[0] == ' '
    ensures Params(Spaced(head) + args) == head + Params(args)
    ensures (Spaced(head) + args) == "" || (Spaced(head) + args)[0] == ' '
  {
    if head == [] {
      assert Spaced(head) + args == args;
    } else {
      var w, more := head[0], head[1..];
      var rest := Spaced(more) + args;
      ParamsAfterHead(more, args);
      assert w in head && head == [w] + more;
      SpacedFirst(w, Spaced(more), args);
      ParamsOfWord(w, rest);
      Regrouped([w], more, Params(args));
    }
  }

  lemma {:induction false} SpacedFirst(w: string, more: string, args: string)
    ensures (" " + w + more) + args == " " + (w + (more + args))
  {
  }

  lemma {:induction false} ParamsOfWord(w: string, rest: string)
    requires IsMiddle(w) && (rest == "" || rest[0] == ' ')
    ensures Params(" " + (w + rest)) == [w] + Params(rest)
  {
    assert w[0] in w;
    DropOneSpace(w + rest);
    TokenOf(w, rest);
  }

  lemma ArgumentsReadBack(m: ChannelModes)
    requires m.Valid()
    ensures var args := if ArgumentText(m) == "" then "" else " " + ArgumentText(m);
            Params(args) == Arguments(m) <==> (m.hasKey ==> IsMiddle(m.key))
  {
    var args := if ArgumentText(m) == "" then "" else " " + ArgumentText(m);
    if m.limit >= 0 { DecimalIsMiddle(m.limit); }
    if m.hasKey && !IsMiddle(m.key) {
      KeyIsLost(m, args);
    } else {
      var list := Arguments(m);
      assert forall w <- list :: IsMiddle(w);
      ParamsAfterHead(list, "");
      assert Spaced(list) + "" == args by {
        if m.hasKey && m.limit >= 0 {
          SpacedAppend([m.key], Decimal(m.limit));
          SpacedAppend([], m.key);
        } else if m.hasKey {
          SpacedAppend([], m.key);
        } else if m.limit >= 0 {
          SpacedAppend([], Decimal(m.limit));
        }
      }
      assert list + [] == list;
    }
  }

  lemma KeyIsLost(m: ChannelModes, args: string)
    requires m.Valid() && m.hasKey && !IsMiddle(m.key)
    requires args == if ArgumentText(m) == "" then "" else " " + ArgumentText(m)
    ensures !(|Params(args)| == |Arguments(m)| && Params(args)[0] == m.key)
  {
    if |Params(args)| == |Arguments(m)| && Params(args)[0] == m.key {
      DropSpacesShrinks(args);
      var t := DropSpaces(args);
      if t[0] != ':' { TokenSpaceFree(t); }
      assert false;
    }
  }
}
