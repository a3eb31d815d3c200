/**
 * The Python `str` operations the core relies on, over `seq<char>`:
 * whitespace, case mapping, substring search, `strip`, `split`, `int()` and `str()` on integers.
 * Case mapping is ASCII and whitespace is the Latin-1 part of `str.isspace`.
 */
module Text {
  import opened Wrappers

  // ------------------------------------------------------------------ characters

  /** `c.isspace()` for characters up to U+00FF. */
  predicate IsSpace(c: char) {
    ('\t' <= c <= '\r') || ('\U{1c}' <= c <= '\U{1f}') || c == ' ' || c == '\U{85}' || c == '\U{a0}'
  }

  /** The regular-expression class `\d`, ASCII part. */
  predicate IsDigit(c: char) {
    '0' <= c <= '9'
  }

  /** The regular-expression class `[a-zA-Z]`. */
  predicate IsAsciiLetter(c: char) {
    'a' <= c <= 'z' || 'A' <= c <= 'Z'
  }

  function LowerChar(c: char): char {
    if 'A' <= c <= 'Z' then (c as int + 32) as char else c
  }

  function UpperChar(c: char): char {
    if 'a' <= c <= 'z' then (c as int - 32) as char else c
  }

  /** `s.lower()` */
  function Lower(s: string): string {
    seq(|s|, i requires 0 <= i < |s| => LowerChar(s[i]))
  }

  /** `s.upper()` */
  function Upper(s: string): string {
    seq(|s|, i requires 0 <= i < |s| => UpperChar(s[i]))
  }

  /** Upper-casing forgets any earlier lower-casing: `s.lower().upper() == s.upper()`. */
  lemma UpperOfLower(s: string)
    ensures Upper(Lower(s)) == Upper(s)
  {
    assert forall i :: 0 <= i < |s| ==> UpperChar(LowerChar(s[i])) == UpperChar(s[i]);
  }

  /** Lower-casing twice is lower-casing once. */
  lemma LowerIdempotent(s: string)
    ensures Lower(Lower(s)) == Lower(s)
  {
  }

  // ------------------------------------------------------------------ search

  predicate StartsWith(s: string, p: string) {
    |p| <= |s| && s[..|p|] == p
  }

  predicate EndsWith(s: string, p: string) {
    |p| <= |s| && s[|s| - |p|..] == p
  }

  /** `t in s` for two strings. */
  predicate Contains(s: string, t: string)
    decreases |s|
  {
    StartsWith(s, t) || (|s| > 0 && Contains(s[1..], t))
  }

  /** `t` occurs in `s` at offset `i`. */
  predicate OccursAt(s: string, t: string, i: nat) {
    i + |t| <= |s| && s[i..i + |t|] == t
  }

  /** `t in s` holds exactly when `t` occurs at some offset of `s`. */
  lemma {:induction false} ContainsIffOccurs(s: string, t: string)
    ensures Contains(s, t) <==> exists i: nat :: OccursAt(s, t, i)
    decreases |s|
  {
    if StartsWith(s, t) {
      assert OccursAt(s, t, 0);
    }
    if |s| > 0 {
      ContainsIffOccurs(s[1..], t);
      if Contains(s[1..], t) {
        var i: nat :| OccursAt(s[1..], t, i);
        assert OccursAt(s, t, i + 1) by {
          assert s[i + 1..i + 1 + |t|] == s[1..][i..i + |t|];
        }
      }
      if exists i: nat :: OccursAt(s, t, i) {
        var i: nat :| OccursAt(s, t, i);
        if i > 0 {
          assert OccursAt(s[1..], t, i - 1) by {
            assert s[1..][i - 1..i - 1 + |t|] == s[i..i + |t|];
          }
        }
      }
    }
  }

  /** An occurrence at a known offset makes `t in s` true. */
  lemma ContainsAt(s: string, t: string, i: nat)
    requires OccursAt(s, t, i)
    ensures Contains(s, t)
  {
    ContainsIffOccurs(s, t);
  }

  /** The index of the first `c` in `s` (`s.find(c)`), or None. */
  function FindFirst(s: string, c: char): (r: Option<nat>)
    ensures r.Some? ==> r.value < |s| && s[r.value] == c && c !in s[..r.value]
    ensures r.None? ==> c !in s
  {
    if |s| == 0 then None
    else if s[0] == c then Some(0)
    else match FindFirst(s[1..], c)
      case None => None
      case Some(i) => assert s[1..][..i] == s[1..i + 1]; Some(i + 1)
  }

  /** The index of the last `c` in `s` (`s.rfind(c)`), or None. */
  function FindLast(s: string, c: char): (r: Option<nat>)
    ensures r.Some? ==> r.value < |s| && s[r.value] == c && c !in s[r.value + 1..]
    ensures r.None? ==> c !in s
  {
    if |s| == 0 then None
    else if s[|s| - 1] == c then Some(|s| - 1)
    else
      var r := FindLast(s[..|s| - 1], c);
      assert r.Some? ==> s[r.value + 1..] == s[..|s| - 1][r.value + 1..] + [s[|s| - 1]];
      assert s == s[..|s| - 1] + [s[|s| - 1]];
      r
  }

  /** The offset of the first occurrence of `t` in `s` (`s.find(t)`), or None. */
  function FindSub(s: string, t: string): (r: Option<nat>)
    ensures r.Some? ==> OccursAt(s, t, r.value) && forall j: nat :: j < r.value ==> !OccursAt(s, t, j)
    ensures r.None? ==> forall j: nat :: !OccursAt(s, t, j)
    decreases |s|
  {
    if |t| > |s| then None
    else if s[..|t|] == t then Some(0)
    else
      OccursShift(s, t);
      match FindSub(s[1..], t)
      case None => None
      case Some(i) => Some(i + 1)
  }

  /** Past the first character, `t` occurs in `s` exactly where it occurs, one earlier, in `s[1..]`. */
  lemma OccursShift(s: string, t: string)
    requires |s| > 0
    ensures forall j: nat :: 0 < j ==> (OccursAt(s, t, j) <==> OccursAt(s[1..], t, j - 1))
  {
    forall j: nat | 0 < j
      ensures OccursAt(s, t, j) <==> OccursAt(s[1..], t, j - 1)
    {
      if j + |t| <= |s| {
        assert forall k :: 1 <= k < |s| ==> s[1..][k - 1] == s[k];
        assert s[j..j + |t|] == s[1..][j - 1..j - 1 + |t|];
      }
    }
  }

  // ------------------------------------------------------------------ strip

  /** `s.lstrip()`: drops the maximal leading run of whitespace. */
  function TrimStart(s: string): (r: string)
    ensures |r| <= |s| && r == s[|s| - |r|..]
    ensures r == [] || !IsSpace(r[0])
    ensures forall k :: 0 <= k < |s| - |r| ==> IsSpace(s[k])
    decreases |s|
  {
    if |s| > 0 && IsSpace(s[0]) then TrimStart(s[1..]) else s
  }

  /** `s.rstrip()`: drops the maximal trailing run of whitespace. */
  function TrimEnd(s: string): (r: string)
    ensures |r| <= |s| && r == s[..|r|]
    ensures r == [] || !IsSpace(r[|r| - 1])
    ensures forall k :: |r| <= k < |s| ==> IsSpace(s[k])
    decreases |s|
  {
    if |s| > 0 && IsSpace(s[|s| - 1]) then TrimEnd(s[..|s| - 1]) else s
  }

  /** `s.strip()` */
  function Strip(s: string): string {
    TrimEnd(TrimStart(s))
  }

  /** A string without whitespace is its own `strip()`. */
  lemma StripNoSpace(s: string)
    requires forall k :: 0 <= k < |s| ==> !IsSpace(s[k])
    ensures Strip(s) == s
  {
  }

  // ------------------------------------------------------------------ split

  /** `s.split(sep)` for a one-character separator. */
  function SplitOn(s: string, sep: char): (r: seq<string>)
    ensures |r| >= 1
    ensures forall k :: 0 <= k < |r| ==> sep !in r[k]
    ensures |r| >= 2 <==> sep in s
    decreases |s|
  {
    match FindFirst(s, sep)
    case None => [s]
    case Some(i) => [s[..i]] + SplitOn(s[i + 1..], sep)
  }

  /** `sep.join(pieces)` */
  function Join(pieces: seq<string>, sep: char): string
    requires |pieces| >= 1
  {
    if |pieces| == 1 then pieces[0] else pieces[0] + [sep] + Join(pieces[1..], sep)
  }

  /** Splitting on a separator and joining back with it gives the original string. */
  lemma {:induction false} JoinSplitOn(s: string, sep: char)
    ensures Join(SplitOn(s, sep), sep) == s
    decreases |s|
  {
    match FindFirst(s, sep)
    case None =>
    case Some(i) =>
      JoinSplitOn(s[i + 1..], sep);
      assert s == s[..i] + [sep] + s[i + 1..];
  }

  /** The maximal leading run of non-whitespace characters. */
  function TakeWord(s: string): (r: string)
    ensures |r| <= |s| && r == s[..|r|]
    ensures forall k :: 0 <= k < |r| ==> !IsSpace(r[k])
    ensures |r| == |s| || IsSpace(s[|r|])
    decreases |s|
  {
    if |s| == 0 || IsSpace(s[0]) then [] else [s[0]] + TakeWord(s[1..])
  }

  /** A non-empty string without whitespace. */
  predicate IsWord(w: string) {
    w != [] && forall j :: 0 <= j < |w| ==> !IsSpace(w[j])
  }

  /** `s.split()`: the maximal runs of non-whitespace characters, in order. */
  function Words(s: string): (r: seq<string>)
    ensures forall k :: 0 <= k < |r| ==> IsWord(r[k])
    ensures r == [] <==> forall k :: 0 <= k < |s| ==> IsSpace(s[k])
    decreases |s|
  {
    if s == [] then []
    else if IsSpace(s[0]) then
      var r := Words(s[1..]);
      assert (forall k :: 0 <= k < |s| ==> IsSpace(s[k])) <==> (forall k :: 0 <= k < |s| - 1 ==> IsSpace(s[1..][k]));
      r
    else
      var w := TakeWord(s);
      [w] + Words(s[|w|..])
  }

  /** Non-whitespace followed by whitespace or nothing is the leading run of non-whitespace. */
  lemma {:induction false} TakeWordOf(w: string, rest: string)
    requires forall k :: 0 <= k < |w| ==> !IsSpace(w[k])
    requires rest == [] || IsSpace(rest[0])
    ensures TakeWord(w + rest) == w
    decreases |w|
  {
    if w != [] {
      TakeWordOf(w[1..], rest);
      assert (w + rest)[1..] == w[1..] + rest;
    } else {
      assert w + rest == rest;
    }
  }

  /** Leading whitespace yields no word. */
  lemma {:induction false} WordsLeadingSpace(ws: string, s: string)
    requires forall k :: 0 <= k < |ws| ==> IsSpace(ws[k])
    ensures Words(ws + s) == Words(s)
    decreases |ws|
  {
    if ws != [] {
      assert IsSpace((ws + s)[0]);
      assert (ws + s)[1..] == ws[1..] + s;
      WordsLeadingSpace(ws[1..], s);
    } else {
      assert ws + s == s;
    }
  }

  /** A word followed by whitespace or nothing is the first word, and the rest yields the others. */
  lemma WordsCons(w: string, rest: string)
    requires IsWord(w) && (rest == [] || IsSpace(rest[0]))
    ensures Words(w + rest) == [w] + Words(rest)
  {
    assert !IsSpace((w + rest)[0]);
    TakeWordOf(w, rest);
    assert (w + rest)[|w|..] == rest;
  }

  // ------------------------------------------------------------------ integers

  predicate AllDigits(s: string) {
    forall k :: 0 <= k < |s| ==> IsDigit(s[k])
  }

  function DigitValue(c: char): nat
    requires IsDigit(c)
  {
    c as int - '0' as int
  }

  function DigitChar(d: nat): (c: char)
    requires d < 10
    ensures IsDigit(c) && DigitValue(c) == d
  {
    ('0' as int + d) as char
  }

  predicate NumeralChars(s: string) {
    forall k :: 0 <= k < |s| ==> IsDigit(s[k]) || s[k] == '_'
  }

  /** Digits with single underscores between them, the form `int()` accepts in base 10. */
  predicate IsNumeral(s: string) {
    && NumeralChars(s)
    && |s| > 0
    && IsDigit(s[0])
    && IsDigit(s[|s| - 1])
    && forall k :: 0 <= k < |s| ==>
         IsDigit(s[k]) || (s[k] == '_' && 0 < k < |s| - 1 && IsDigit(s[k - 1]) && IsDigit(s[k + 1]))
  }

  /** The value of a run of digits and underscores, the underscores ignored. */
  function NumeralValue(s: string): nat
    requires NumeralChars(s)
  {
    if s == [] then 0
    else if s[|s| - 1] == '_' then NumeralValue(s[..|s| - 1])
    else NumeralValue(s[..|s| - 1]) * 10 + DigitValue(s[|s| - 1])
  }

  /** `int(s)` in base 10; None where Python raises ValueError. */
  function ParseInt(s: string): Option<int> {
    var t := Strip(s);
    if |t| > 0 && (t[0] == '+' || t[0] == '-') then
      if IsNumeral(t[1..]) then
        var n: int := NumeralValue(t[1..]);
        Some(if t[0] == '-' then -n else n)
      else None
    else if IsNumeral(t) then Some(NumeralValue(t))
    else None
  }

  /** `str(n)` for a natural number: its decimal digits without leading zeros. */
  function ShowNat(n: nat): (r: string)
    ensures r != [] && AllDigits(r)
  {
    if n < 10 then [DigitChar(n)] else ShowNat(n / 10) + [DigitChar(n % 10)]
  }

  /** `str(i)` for an integer. */
  function ShowInt(i: int): string {
    if i < 0 then "-" + ShowNat(-i) else ShowNat(i)
  }

  lemma {:induction false} NumeralValueOfShowNat(n: nat)
    ensures NumeralValue(ShowNat(n)) == n
  {
    if n >= 10 {
      NumeralValueOfShowNat(n / 10);
      var s := ShowNat(n);
      assert s[..|s| - 1] == ShowNat(n / 10);
    }
  }

  /** A non-empty run of digits is a numeral. */
  lemma DigitsAreNumeral(d: string)
    requires d != [] && AllDigits(d)
    ensures IsNumeral(d)
  {
  }

  /** A negative sign in front of a run of digits parses to the negated value. */
  lemma ParseNegatedDigits(d: string)
    requires d != [] && AllDigits(d)
    ensures ParseInt("-" + d) == Some(-(NumeralValue(d) as int))
  {
    MinusDigitsStripped(d);
    DigitsAreNumeral(d);
    assert ("-" + d)[1..] == d;
    ParseNegative("-" + d);
  }

  /** A minus sign followed by digits has no surrounding whitespace to strip. */
  lemma MinusDigitsStripped(d: string)
    requires AllDigits(d)
    ensures Strip("-" + d) == "-" + d
  {
    var s := "-" + d;
    assert forall k :: 0 <= k < |s| ==> !IsSpace(s[k]);
    StripNoSpace(s);
  }

  /** A stripped text of a minus sign and a numeral parses to the negated numeral. */
  lemma ParseNegative(t: string)
    requires Strip(t) == t && |t| > 0 && t[0] == '-' && IsNumeral(t[1..])
    ensures ParseInt(t) == Some(-(NumeralValue(t[1..]) as int))
  {
  }

  /** The decimal form of a natural number parses back to it. */
  lemma ParseShowNat(n: nat)
    ensures ParseInt(ShowNat(n)) == Some(n)
  {
    NumeralValueOfShowNat(n);
    DigitRunParses(ShowNat(n));
  }

  /** `int(str(i)) == i`: the decimal form of an integer parses back to it. */
  lemma ParseShowInt(i: int)
    ensures ParseInt(ShowInt(i)) == Some(i)
  {
    if i < 0 {
      ParseShowNegative(i);
    } else {
      ParseShowNat(i);
    }
  }

  /** The decimal form of a negative integer parses back to it. */
  lemma ParseShowNegative(i: int)
    requires i < 0
    ensures ParseInt(ShowInt(i)) == Some(i)
  {
    var n: nat := -i;
    var d := ShowNat(n);
    calc {
      ParseInt(ShowInt(i));
      { assert ShowInt(i) == "-" + d; }
      ParseInt("-" + d);
      { ParseNegatedDigits(d); NumeralValueOfShowNat(n); }
      Some(i);
    }
  }

  /** `str` is injective on integers. */
  lemma ShowIntInjective(i: int, j: int)
    requires ShowInt(i) == ShowInt(j)
    ensures i == j
  {
    ParseShowInt(i);
    ParseShowInt(j);
  }

  /** The maximal leading run of digits. */
  function LeadingDigits(s: string): (r: string)
    ensures |r| <= |s| && r == s[..|r|] && AllDigits(r)
    ensures |r| == |s| || !IsDigit(s[|r|])
    decreases |s|
  {
    if |s| == 0 || !IsDigit(s[0]) then [] else [s[0]] + LeadingDigits(s[1..])
  }

  /** The maximal leading run of ASCII letters (what `[a-zA-Z]*` matches at the start of `s`). */
  function LeadingLetters(s: string): (r: string)
    ensures |r| <= |s| && r == s[..|r|]
    ensures forall k :: 0 <= k < |r| ==> IsAsciiLetter(r[k])
    ensures |r| == |s| || !IsAsciiLetter(s[|r|])
    decreases |s|
  {
    if |s| == 0 || !IsAsciiLetter(s[0]) then [] else [s[0]] + LeadingLetters(s[1..])
  }

  /** Letters followed by a non-letter: the letters are the leading run. */
  lemma {:induction false} LeadingLettersOf(w: string, rest: string)
    requires forall k :: 0 <= k < |w| ==> IsAsciiLetter(w[k])
    requires rest == [] || !IsAsciiLetter(rest[0])
    ensures LeadingLetters(w + rest) == w
    decreases |w|
  {
    if w != [] {
      LeadingLettersOf(w[1..], rest);
      assert (w + rest)[1..] == w[1..] + rest;
    }
  }

  /** `re.search(r"(\d+)", s).group(1)`: the leftmost maximal run of digits, None when `s` has no digit. */
  function FirstDigitRun(s: string): (r: Option<string>)
    ensures r.Some? ==> r.value != [] && AllDigits(r.value)
    ensures r.None? <==> forall k :: 0 <= k < |s| ==> !IsDigit(s[k])
    decreases |s|
  {
    if s == [] then None
    else if IsDigit(s[0]) then Some(LeadingDigits(s))
    else FirstDigitRun(s[1..])
  }

  /** A digit run parses as an integer (`int(match.group(1))` never raises). */
  lemma DigitRunParses(d: string)
    requires d != [] && AllDigits(d)
    ensures ParseInt(d) == Some(NumeralValue(d))
  {
    DigitsAreNumeral(d);
    StripNoSpace(d);
  }
}
