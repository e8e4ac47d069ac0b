/**
 * The parts of Python's `str` that the scoring tool relies on: stripping,
 * splitting on one character and joining back, line splitting, substring
 * tests and counts, ASCII case mapping, and `float()` on decimal spellings.
 */
module Text {
  import opened Wrappers

  /** The characters for which Python's `str.isspace()` holds; `str.strip()`
      and the regular-expression class `\s` both use this set. */
  const Whitespace: set<char> := {
    ' ', '\t', '\n', '\r', '\U{B}', '\U{C}', '\U{1C}', '\U{1D}', '\U{1E}', '\U{1F}',
    '\U{85}', '\U{A0}', '\U{1680}', '\U{2000}', '\U{2001}', '\U{2002}', '\U{2003}',
    '\U{2004}', '\U{2005}', '\U{2006}', '\U{2007}', '\U{2008}', '\U{2009}', '\U{200A}',
    '\U{2028}', '\U{2029}', '\U{202F}', '\U{205F}', '\U{3000}'
  }

  /** The line boundaries of `str.splitlines()` (`\r\n` counts as one). */
  const LineBreaks: set<char> := {
    '\n', '\r', '\U{B}', '\U{C}', '\U{1C}', '\U{1D}', '\U{1E}', '\U{85}', '\U{2028}', '\U{2029}'
  }

  predicate IsDigit(c: char) { '0' <= c <= '9' }

  predicate AllDigits(s: string) { forall i :: 0 <= i < |s| ==> IsDigit(s[i]) }

  // ---------------------------------------------------------------- stripping

  /** `s.lstrip(cs)`: drops the longest prefix made of characters of `cs`. */
  function StripLeading(s: string, cs: set<char>): (r: string)
    ensures |r| <= |s|
    decreases |s|
  {
    if s != [] && s[0] in cs then StripLeading(s[1..], cs) else s
  }

  /** `s.rstrip(cs)`: drops the longest suffix made of characters of `cs`. */
  function StripTrailing(s: string, cs: set<char>): (r: string)
    ensures |r| <= |s|
    decreases |s|
  {
    if s != [] && s[|s| - 1] in cs then StripTrailing(s[..|s| - 1], cs) else s
  }

  /** `s.strip(cs)`: both ends at once. */
  function StripBoth(s: string, cs: set<char>): (r: string)
    ensures |r| <= |s|
  {
    StripTrailing(StripLeading(s, cs), cs)
  }

  /** `s.strip()` with no argument. */
  function Strip(s: string): string { StripBoth(s, Whitespace) }

  /** What `lstrip` removes is a prefix of characters of `cs`, and what is
      left does not start with one. */
  lemma {:induction false} StripLeadingFacts(s: string, cs: set<char>)
    ensures var r := StripLeading(s, cs);
      && r == s[|s| - |r|..]
      && (forall i :: 0 <= i < |s| - |r| ==> s[i] in cs)
      && (r == [] || r[0] !in cs)
    decreases |s|
  {
    if s != [] && s[0] in cs {
      StripLeadingFacts(s[1..], cs);
    }
  }

  /** What `rstrip` removes is a suffix of characters of `cs`, and what is
      left does not end with one. */
  lemma {:induction false} StripTrailingFacts(s: string, cs: set<char>)
    ensures var r := StripTrailing(s, cs);
      && r == s[..|r|]
      && (forall i :: |r| <= i < |s| ==> s[i] in cs)
      && (r == [] || r[|r| - 1] !in cs)
    decreases |s|
  {
    if s != [] && s[|s| - 1] in cs {
      StripTrailingFacts(s[..|s| - 1], cs);
    }
  }

  /** `strip` leaves nothing exactly when every character is in `cs`, and
      otherwise leaves a string that neither starts nor ends with one. */
  lemma {:induction false} StripBothFacts(s: string, cs: set<char>)
    ensures var r := StripBoth(s, cs);
      && (r == [] <==> forall i :: 0 <= i < |s| ==> s[i] in cs)
      && (r != [] ==> r[0] !in cs && r[|r| - 1] !in cs)
  {
    var t := StripLeading(s, cs);
    StripLeadingFacts(s, cs);
    StripTrailingFacts(t, cs);
    var r := StripTrailing(t, cs);
    if t != [] {
      assert s[|s| - |t|] == t[0];
    }
    if r != [] {
      assert r[0] == t[0];
    }
  }

  lemma StripLeadingNoop(s: string, cs: set<char>)
    requires s == [] || s[0] !in cs
    ensures StripLeading(s, cs) == s
  {}

  lemma StripTrailingNoop(s: string, cs: set<char>)
    requires s == [] || s[|s| - 1] !in cs
    ensures StripTrailing(s, cs) == s
  {}

  /** A string that starts with one `c` and ends with a character other than
      `c` loses exactly that first character when `c` is stripped. */
  lemma {:induction false} StripOneLeading(s: string, c: char)
    requires |s| > 0 && s[0] != c && s[|s| - 1] != c
    ensures StripBoth([c] + s, {c}) == s
  {
    assert ([c] + s)[1..] == s;
    StripLeadingNoop(s, {c});
    StripTrailingNoop(s, {c});
  }

  // -------------------------------------------------------- searching a char

  /** `s.find(c)`, with `|s|` standing for "not found". */
  function IndexOf(s: string, c: char): (i: nat)
    ensures i <= |s|
    ensures i < |s| ==> s[i] == c
  {
    if s == [] then 0 else if s[0] == c then 0 else 1 + IndexOf(s[1..], c)
  }

  /** No earlier position holds `c`. */
  lemma {:induction false} IndexOfFirst(s: string, c: char)
    ensures forall k :: 0 <= k < IndexOf(s, c) ==> s[k] != c
    decreases |s|
  {
    if s != [] && s[0] != c {
      IndexOfFirst(s[1..], c);
    }
  }

  /** The first position holding a character of `cs`, or `|s|`. */
  function IndexOfAny(s: string, cs: set<char>): (i: nat)
    ensures i <= |s|
    ensures i < |s| ==> s[i] in cs
    ensures forall k :: 0 <= k < i ==> s[k] !in cs
  {
    if s == [] then 0 else if s[0] in cs then 0 else 1 + IndexOfAny(s[1..], cs)
  }

  lemma IndexOfAbsent(s: string, c: char)
    requires c !in s
    ensures IndexOf(s, c) == |s|
  {}

  /** `s.rfind(c)` for a character that occurs in `s`. */
  function LastIndexOf(s: string, c: char): (i: nat)
    requires c in s
    ensures i < |s| && s[i] == c
    ensures forall k :: i < k < |s| ==> s[k] != c
    decreases |s|
  {
    if s[|s| - 1] == c then |s| - 1
    else
      var j :| 0 <= j < |s| && s[j] == c;
      assert s[..|s| - 1][j] == c;
      LastIndexOf(s[..|s| - 1], c)
  }

  // ------------------------------------------------------ splitting and joining

  /** `s.split(sep)` for a one-character separator. */
  function Split(s: string, sep: char): (parts: seq<string>)
    ensures |parts| == multiset(s)[sep] + 1
    ensures forall k :: 0 <= k < |parts| ==> sep !in parts[k]
    decreases |s|
  {
    var i := IndexOf(s, sep);
    IndexOfFirst(s, sep);
    if i == |s| then
      assert sep !in s;
      [s]
    else
      assert s == s[..i] + [sep] + s[i + 1..];
      assert sep !in s[..i];
      [s[..i]] + Split(s[i + 1..], sep)
  }

  /** `sep.join(parts)`; joining no parts gives the empty string. */
  function Join(parts: seq<string>, sep: char): string
  {
    if |parts| == 0 then ""
    else if |parts| == 1 then parts[0]
    else parts[0] + [sep] + Join(parts[1..], sep)
  }

  /** Splitting and joining back gives the original string. */
  lemma {:induction false} JoinSplit(s: string, sep: char)
    ensures Join(Split(s, sep), sep) == s
    decreases |s|
  {
    var i := IndexOf(s, sep);
    SplitAt(s, sep);
    if i < |s| {
      JoinSplit(s[i + 1..], sep);
      JoinCons(s[..i], Split(s[i + 1..], sep), sep);
      assert s == s[..i] + [sep] + s[i + 1..];
    }
  }

  lemma SplitAt(s: string, sep: char)
    ensures IndexOf(s, sep) == |s| ==> Split(s, sep) == [s]
    ensures IndexOf(s, sep) < |s| ==>
      Split(s, sep) == [s[..IndexOf(s, sep)]] + Split(s[IndexOf(s, sep) + 1..], sep)
  {
  }

  lemma JoinCons(head: string, rest: seq<string>, sep: char)
    requires |rest| >= 1
    ensures Join([head] + rest, sep) == head + [sep] + Join(rest, sep)
  {
    assert ([head] + rest)[1..] == rest;
  }

  /** Joining parts that do not contain the separator and splitting again
      gives the parts back. */
  lemma {:induction false} SplitJoin(parts: seq<string>, sep: char)
    requires |parts| > 0
    requires forall k :: 0 <= k < |parts| ==> sep !in parts[k]
    ensures Split(Join(parts, sep), sep) == parts
    decreases |parts|
  {
    if |parts| == 1 {
      IndexOfAbsent(parts[0], sep);
    } else {
      var s := Join(parts, sep);
      var rest := Join(parts[1..], sep);
      assert s == parts[0] + [sep] + rest;
      var i := IndexOf(s, sep);
      IndexOfFirst(s, sep);
      assert s[|parts[0]|] == sep;
      assert forall k :: 0 <= k < |parts[0]| ==> s[k] == parts[0][k];
      assert i == |parts[0]|;
      assert s[..i] == parts[0];
      assert s[i + 1..] == rest;
      SplitJoin(parts[1..], sep);
    }
  }

  /** Splitting around one separator splits both sides. */
  lemma {:induction false} SplitAppend(a: string, b: string, sep: char)
    ensures Split(a + [sep] + b, sep) == Split(a, sep) + Split(b, sep)
    decreases |a|
  {
    var s := a + [sep] + b;
    var i := IndexOf(a, sep);
    IndexOfFirst(a, sep);
    IndexOfFirst(s, sep);
    assert forall k :: 0 <= k < |a| ==> s[k] == a[k];
    assert s[|a|] == sep;
    if i == |a| {
      assert IndexOf(s, sep) == |a|;
      assert s[..|a|] == a;
      assert s[|a| + 1..] == b;
    } else {
      assert IndexOf(s, sep) == i;
      assert s[..i] == a[..i];
      assert s[i + 1..] == a[i + 1..] + [sep] + b;
      SplitAppend(a[i + 1..], b, sep);
    }
  }

  /** The first piece of a split is everything before the first separator. */
  lemma SplitFirst(s: string, sep: char)
    ensures Split(s, sep)[0] == s[..IndexOf(s, sep)]
  {
  }

  /** `s.splitlines()`: pieces between line boundaries, no trailing empty piece. */
  function SplitLines(s: string): (lines: seq<string>)
    ensures forall k :: 0 <= k < |lines| ==> IndexOfAny(lines[k], LineBreaks) == |lines[k]|
    decreases |s|
  {
    if s == [] then []
    else
      var i := IndexOfAny(s, LineBreaks);
      if i == |s| then [s]
      else
        var next := if s[i] == '\r' && i + 1 < |s| && s[i + 1] == '\n' then i + 2 else i + 1;
        [s[..i]] + SplitLines(s[next..])
  }

  /** A string with no line boundary is one line (or none when empty). */
  lemma SplitLinesSingle(s: string)
    requires s != [] && IndexOfAny(s, LineBreaks) == |s|
    ensures SplitLines(s) == [s]
  {}

  // ---------------------------------------------------------------- substrings

  predicate IsPrefix(t: string, s: string) { |t| <= |s| && s[..|t|] == t }

  predicate EndsWith(s: string, t: string) { |t| <= |s| && s[|s| - |t|..] == t }

  /** `t in s` for strings. */
  predicate Contains(s: string, t: string)
    decreases |s|
  {
    IsPrefix(t, s) || (|s| > 0 && Contains(s[1..], t))
  }

  /** An occurrence at a known position is an occurrence. */
  lemma {:induction false} ContainsAt(s: string, t: string, i: nat)
    requires i + |t| <= |s| && s[i..i + |t|] == t
    ensures Contains(s, t)
    decreases i
  {
    if i == 0 {
      assert IsPrefix(t, s);
    } else {
      assert s[1..][i - 1..i - 1 + |t|] == s[i..i + |t|];
      ContainsAt(s[1..], t, i - 1);
    }
  }

  /** Where an occurrence is. */
  lemma {:induction false} ContainsWitness(s: string, t: string) returns (i: nat)
    requires Contains(s, t)
    ensures i + |t| <= |s| && s[i..i + |t|] == t
    decreases |s|
  {
    if IsPrefix(t, s) {
      i := 0;
    } else {
      var j := ContainsWitness(s[1..], t);
      assert s[1..][j..j + |t|] == s[j + 1..j + 1 + |t|];
      i := j + 1;
    }
  }

  /** Containment of strings is transitive. */
  lemma ContainsTransitive(s: string, t: string, u: string)
    requires Contains(s, t) && Contains(t, u)
    ensures Contains(s, u)
  {
    var i := ContainsWitness(s, t);
    var j := ContainsWitness(t, u);
    forall k | 0 <= k < |u|
      ensures s[i + j..i + j + |u|][k] == u[k]
    {
      assert u[k] == t[j..j + |u|][k] == t[j + k];
      assert t[j + k] == s[i..i + |t|][j + k] == s[i + j + k];
    }
    assert s[i + j..i + j + |u|] == u;
    ContainsAt(s, u, i + j);
  }

  /** `s.count(pat)`: non-overlapping occurrences, scanned left to right. */
  function CountOccurrences(s: string, pat: string): nat
    decreases |s|
  {
    if |pat| == 0 then |s| + 1
    else if |s| < |pat| then 0
    else if s[..|pat|] == pat then 1 + CountOccurrences(s[|pat|..], pat)
    else CountOccurrences(s[1..], pat)
  }

  /** A pattern that is never found is counted zero times, and only then. */
  lemma {:induction false} CountZeroIffAbsent(s: string, pat: string)
    requires |pat| > 0
    ensures CountOccurrences(s, pat) == 0 <==> !Contains(s, pat)
    decreases |s|
  {
    if |s| > 0 {
      CountZeroIffAbsent(s[1..], pat);
    }
  }

  /** A leading occurrence is counted, then the scan goes on after it. */
  lemma CountLeading(pat: string, s: string)
    requires |pat| > 0
    ensures CountOccurrences(pat + s, pat) == 1 + CountOccurrences(s, pat)
  {
    assert (pat + s)[..|pat|] == pat;
    assert (pat + s)[|pat|..] == s;
  }

  // ------------------------------------------------------------ case mapping

  function LowerChar(c: char): char
  {
    if 'A' <= c <= 'Z' then (c as int + 32) as char else c
  }

  function UpperChar(c: char): char
  {
    if 'a' <= c <= 'z' then (c as int - 32) as char else c
  }

  /** `s.lower()` on ASCII letters. */
  function Lower(s: string): (r: string)
    ensures |r| == |s| && forall i :: 0 <= i < |s| ==> r[i] == LowerChar(s[i])
  {
    seq(|s|, i requires 0 <= i < |s| => LowerChar(s[i]))
  }

  /** `s.upper()` on ASCII letters. */
  function Upper(s: string): (r: string)
    ensures |r| == |s| && forall i :: 0 <= i < |s| ==> r[i] == UpperChar(s[i])
  {
    seq(|s|, i requires 0 <= i < |s| => UpperChar(s[i]))
  }

  /** Upper-casing works character by character, so it distributes over `+`. */
  lemma UpperAppend(a: string, b: string)
    ensures Upper(a + b) == Upper(a) + Upper(b)
  {
  }

  /** `s.replace(a, b)` for single characters. */
  function ReplaceChar(s: string, a: char, b: char): (r: string)
    ensures |r| == |s|
    ensures forall i :: 0 <= i < |s| ==> r[i] == if s[i] == a then b else s[i]
  {
    seq(|s|, i requires 0 <= i < |s| => if s[i] == a then b else s[i])
  }

  /** The characters `s` keeps once every character of `cs` is deleted. */
  function Remove(s: string, cs: set<char>): (r: string)
    ensures forall i :: 0 <= i < |r| ==> r[i] !in cs
    ensures (forall i :: 0 <= i < |s| ==> s[i] !in cs) ==> r == s
  {
    if s == [] then []
    else (if s[0] in cs then [] else [s[0]]) + Remove(s[1..], cs)
  }

  /** Deleting characters works piece by piece. */
  lemma {:induction false} RemoveAppend(a: string, b: string, cs: set<char>)
    ensures Remove(a + b, cs) == Remove(a, cs) + Remove(b, cs)
    decreases |a|
  {
    if a == [] {
      assert a + b == b;
    } else {
      var head := if a[0] in cs then [] else [a[0]];
      assert (a + b)[0] == a[0] && (a + b)[1..] == a[1..] + b;
      assert Remove(a + b, cs) == head + Remove(a[1..] + b, cs);
      RemoveAppend(a[1..], b, cs);
      assert head + (Remove(a[1..], cs) + Remove(b, cs)) == (head + Remove(a[1..], cs)) + Remove(b, cs);
    }
  }

  // ---------------------------------------------------------------- numbers

  function Pow10(n: nat): (r: nat)
    ensures r > 0
  {
    if n == 0 then 1 else 10 * Pow10(n - 1)
  }

  /** The value of a string of decimal digits (0 for the empty string). */
  function DigitsValue(d: string): nat
    requires AllDigits(d)
  {
    if d == [] then 0
    else 10 * DigitsValue(d[..|d| - 1]) + (d[|d| - 1] as int - '0' as int)
  }

  /** The integer part of an unsigned decimal spelling: before the point. */
  function WholePart(t: string): string { t[..IndexOf(t, '.')] }

  /** The fractional part: after the first point, empty when there is none. */
  function FracPart(t: string): string
  {
    var dot := IndexOf(t, '.');
    if dot < |t| then t[dot + 1..] else ""
  }

  /** `digits[.digits]` with at least one digit. */
  predicate IsUnsignedDecimal(t: string)
  {
    AllDigits(WholePart(t)) && AllDigits(FracPart(t)) && |WholePart(t)| + |FracPart(t)| > 0
  }

  /** The value of `whole.frac`: the fraction's digits shifted right by
      their number. */
  function DecimalValue(whole: string, frac: string): (v: real)
    requires AllDigits(whole) && AllDigits(frac)
    ensures v >= 0.0
  {
    DigitsValue(whole) as real + Shifted(DigitsValue(frac) as real, |frac|)
  }

  /** `x / 10^k`, one decimal place at a time. */
  function Shifted(x: real, k: nat): (r: real)
    ensures x >= 0.0 ==> r >= 0.0
  {
    if k == 0 then x else Shifted(x, k - 1) / 10.0
  }

  /** Shifting by `k` places divides by `10^k`. */
  lemma {:induction false} ShiftedDivides(x: real, k: nat)
    ensures Shifted(x, k) * Pow10(k) as real == x
  {
    if k > 0 {
      ShiftedDivides(x, k - 1);
      var y := Shifted(x, k - 1);
      var p := Pow10(k - 1) as real;
      assert Pow10(k) as real == 10.0 * p;
      calc {
        Shifted(x, k) * Pow10(k) as real;
        (y / 10.0) * (10.0 * p);
        y * p;
      }
    }
  }

  /** `float(t)` for an unsigned decimal spelling `digits[.digits]`. */
  function ParseUnsigned(t: string): (r: Option<real>)
    ensures r.Some? <==> IsUnsignedDecimal(t)
    ensures r.Some? ==> r.value >= 0.0
  {
    if IsUnsignedDecimal(t) then Some(DecimalValue(WholePart(t), FracPart(t))) else None
  }

  /** Python's `float(s)` on decimal spellings: surrounding whitespace, an
      optional sign, digits with at most one decimal point. */
  function ParseFloat(s: string): Option<real>
  {
    var t := Strip(s);
    if |t| > 0 && (t[0] == '+' || t[0] == '-') then
      match ParseUnsigned(t[1..])
      case None => None
      case Some(v) => Some(if t[0] == '-' then -v else v)
    else ParseUnsigned(t)
  }

  /** A string without whitespace at its ends is left alone by `strip()`. */
  lemma {:induction false} StripNoop(s: string)
    requires s == [] || (s[0] !in Whitespace && s[|s| - 1] !in Whitespace)
    ensures Strip(s) == s
  {
    StripLeadingNoop(s, Whitespace);
    StripTrailingNoop(s, Whitespace);
  }

  predicate HasDigit(s: string) { exists i :: 0 <= i < |s| && IsDigit(s[i]) }

  /** A string of digits and decimal points parses exactly when it holds at
      least one digit and at most one point; its value is never negative. */
  lemma {:induction false} ParseDigitsAndDots(s: string)
    requires forall i :: 0 <= i < |s| ==> IsDigit(s[i]) || s[i] == '.'
    ensures ParseFloat(s).Some? <==> multiset(s)['.'] <= 1 && HasDigit(s)
    ensures ParseFloat(s).Some? ==> ParseFloat(s).value >= 0.0
  {
    StripNoop(s);
    UnsignedFloat(s);
    if IndexOf(s, '.') < |s| {
      PointSplit(s, IndexOf(s, '.'));
    } else {
      NoPoint(s);
    }
  }

  lemma {:induction false} NoPoint(s: string)
    requires forall i :: 0 <= i < |s| ==> IsDigit(s[i]) || s[i] == '.'
    requires IndexOf(s, '.') == |s|
    ensures IsUnsignedDecimal(s) <==> multiset(s)['.'] <= 1 && HasDigit(s)
  {
    IndexOfFirst(s, '.');
    assert '.' !in s;
    assert s[..IndexOf(s, '.')] == s;
    assert AllDigits(s);
    if |s| > 0 { assert IsDigit(s[0]); }
  }

  /** Without surrounding whitespace or a sign, `float()` is the unsigned parse. */
  lemma {:induction false} UnsignedFloat(s: string)
    requires Strip(s) == s && (s == [] || (s[0] != '+' && s[0] != '-'))
    ensures ParseFloat(s) == ParseUnsigned(s)
  {}

  lemma {:induction false} PointSplit(s: string, dot: nat)
    requires forall i :: 0 <= i < |s| ==> IsDigit(s[i]) || s[i] == '.'
    requires dot == IndexOf(s, '.') && dot < |s|
    ensures IsUnsignedDecimal(s) <==> multiset(s)['.'] <= 1 && HasDigit(s)
  {
    var whole, frac := PointPieces(s, dot);
    DigitsOrPoints(frac);
    if IsUnsignedDecimal(s) {
      if |whole| > 0 { assert IsDigit(s[0]); }
      else { assert IsDigit(s[dot + 1]); }
    }
    if multiset(s)['.'] <= 1 && HasDigit(s) {
      var i :| 0 <= i < |s| && IsDigit(s[i]);
      assert i != dot;
      assert AllDigits(whole);
    }
  }

  /** The two sides of the first point, and how many points each holds. */
  lemma {:induction false} PointPieces(s: string, dot: nat) returns (whole: string, frac: string)
    requires forall i :: 0 <= i < |s| ==> IsDigit(s[i]) || s[i] == '.'
    requires dot == IndexOf(s, '.') && dot < |s|
    ensures whole == WholePart(s) == s[..dot] && frac == FracPart(s) == s[dot + 1..]
    ensures forall i :: 0 <= i < |whole| ==> IsDigit(whole[i])
    ensures forall i :: 0 <= i < |frac| ==> IsDigit(frac[i]) || frac[i] == '.'
    ensures multiset(s)['.'] == multiset(frac)['.'] + 1
  {
    whole := s[..dot];
    frac := s[dot + 1..];
    assert s == whole + ['.'] + frac;
    IndexOfFirst(s, '.');
    assert '.' !in whole;
    assert multiset(s) == multiset(whole) + multiset(['.']) + multiset(frac);
    assert forall i :: 0 <= i < |frac| ==> frac[i] == s[dot + 1 + i];
  }

  lemma {:induction false} DigitsOrPoints(t: string)
    requires forall i :: 0 <= i < |t| ==> IsDigit(t[i]) || t[i] == '.'
    ensures AllDigits(t) <==> multiset(t)['.'] == 0
  {
    if multiset(t)['.'] == 0 {
      assert '.' !in t;
    } else {
      assert '.' in t;
    }
  }

  lemma {:induction false} DigitsValueAppend(d: string, c: char)
    requires AllDigits(d) && IsDigit(c)
    ensures DigitsValue(d + [c]) == 10 * DigitsValue(d) + (c as int - '0' as int)
  {
    assert (d + [c])[..|d|] == d;
  }
}
