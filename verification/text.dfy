/** The string primitives the client code leans on, restricted to ASCII:
    `trim`, `toUpperCase`/`toLowerCase`, `startsWith`, `includes`,
    `split` on one character, the decimal digits of a number (`${n}`),
    `parseInt` and the test `isNaN` applies to a string. */
module Text {
  import opened Values

  // ---------------------------------------------------------------------
  // Whitespace and trimming
  // ---------------------------------------------------------------------

  /** The ASCII characters `String.prototype.trim` removes. */
  predicate IsSpace(c: char) {
    c == ' ' || c == '\t' || c == '\n' || c == '\r' || c == '\U{000B}' || c == '\U{000C}'
  }

  predicate AllSpace(s: string) {
    forall i :: 0 <= i < |s| ==> IsSpace(s[i])
  }

  /** The number of whitespace characters `s` starts with. */
  function LeadingSpaces(s: string): (r: nat)
    ensures r <= |s|
    ensures forall i :: 0 <= i < r ==> IsSpace(s[i])
    ensures r < |s| ==> !IsSpace(s[r])
  {
    if s != [] && IsSpace(s[0]) then 1 + LeadingSpaces(s[1..]) else 0
  }

  /** The number of whitespace characters `s` ends with. */
  function TrailingSpaces(s: string): (r: nat)
    ensures r <= |s|
    ensures forall i :: |s| - r <= i < |s| ==> IsSpace(s[i])
    ensures r < |s| ==> !IsSpace(s[|s| - 1 - r])
  {
    if s != [] && IsSpace(s[|s| - 1]) then 1 + TrailingSpaces(s[..|s| - 1]) else 0
  }

  /** `s.trim()`: empty exactly when `s` is blank, otherwise the part of `s`
      between its leading and trailing whitespace, which neither starts nor
      ends with whitespace. */
  function Trim(s: string): (r: string)
    ensures r == [] <==> AllSpace(s)
    ensures r != [] ==> !IsSpace(r[0]) && !IsSpace(r[|r| - 1])
    ensures r != [] ==> LeadingSpaces(s) + |r| + TrailingSpaces(s) == |s|
    ensures r != [] ==> r == s[LeadingSpaces(s)..|s| - TrailingSpaces(s)]
  {
    var a := LeadingSpaces(s);
    if a == |s| then []
    else
      assert !IsSpace(s[a]);
      s[a..|s| - TrailingSpaces(s)]
  }

  /** A string that neither starts nor ends with whitespace is its own trim. */
  lemma TrimOfTrimmed(s: string)
    requires s == [] || (!IsSpace(s[0]) && !IsSpace(s[|s| - 1]))
    ensures Trim(s) == s
  {
    if s != [] {
      assert LeadingSpaces(s) == 0;
      assert TrailingSpaces(s) == 0;
      assert s[0..|s|] == s;
    }
  }

  /** Trimming is idempotent. */
  lemma TrimIdempotent(s: string)
    ensures Trim(Trim(s)) == Trim(s)
  {
    TrimOfTrimmed(Trim(s));
  }

  // ---------------------------------------------------------------------
  // Case mapping
  // ---------------------------------------------------------------------

  predicate IsLowerLetter(c: char) { 'a' <= c <= 'z' }
  predicate IsUpperLetter(c: char) { 'A' <= c <= 'Z' }

  function UpperChar(c: char): (r: char)
    ensures IsLowerLetter(c) ==> IsUpperLetter(r) && r as int == c as int - 32
    ensures !IsLowerLetter(c) ==> r == c
  {
    if IsLowerLetter(c) then (c as int - 32) as char else c
  }

  function LowerChar(c: char): (r: char)
    ensures IsUpperLetter(c) ==> IsLowerLetter(r) && r as int == c as int + 32
    ensures !IsUpperLetter(c) ==> r == c
  {
    if IsUpperLetter(c) then (c as int + 32) as char else c
  }

  /** `s.toUpperCase()` on ASCII letters. */
  function Upper(s: string): (r: string)
    ensures |r| == |s|
    ensures forall i :: 0 <= i < |s| ==> r[i] == UpperChar(s[i])
  {
    seq(|s|, i requires 0 <= i < |s| => UpperChar(s[i]))
  }

  /** `s.toLowerCase()` on ASCII letters. */
  function Lower(s: string): (r: string)
    ensures |r| == |s|
    ensures forall i :: 0 <= i < |s| ==> r[i] == LowerChar(s[i])
  {
    seq(|s|, i requires 0 <= i < |s| => LowerChar(s[i]))
  }

  lemma UpperIdempotent(s: string)
    ensures Upper(Upper(s)) == Upper(s)
  {
    assert forall i :: 0 <= i < |s| ==> Upper(Upper(s))[i] == Upper(s)[i];
  }

  /** Upper-casing neither adds nor removes whitespace, so it commutes with trim. */
  lemma TrimUpper(s: string)
    ensures Trim(Upper(s)) == Upper(Trim(s))
  {
    var u := Upper(s);
    UpperSpacing(s);
    SameLeading(s, u);
    SameTrailing(s, u);
    var a, b := LeadingSpaces(s), TrailingSpaces(s);
    if a < |s| {
      UpperSlice(s, a, |s| - b);
    }
  }

  /** Upper-casing keeps the length and where the whitespace is. */
  lemma UpperSpacing(s: string)
    ensures |Upper(s)| == |s|
    ensures forall i :: 0 <= i < |s| ==> (IsSpace(Upper(s)[i]) <==> IsSpace(s[i]))
  {
    forall i | 0 <= i < |s|
      ensures IsSpace(Upper(s)[i]) <==> IsSpace(s[i])
    {
      UpperKeepsSpace(s[i]);
    }
  }

  /** Upper-casing works on any slice alike. */
  lemma UpperSlice(s: string, i: int, j: int)
    requires 0 <= i <= j <= |s|
    ensures Upper(s)[i..j] == Upper(s[i..j])
  {
    assert forall k :: 0 <= k < j - i ==> Upper(s)[i..j][k] == UpperChar(s[i + k]);
  }

  /** Upper-casing neither makes nor removes whitespace. */
  lemma UpperKeepsSpace(c: char)
    ensures IsSpace(UpperChar(c)) <==> IsSpace(c)
  {
  }

  /** Strings with whitespace in the same places start with as much of it. */
  lemma {:induction false} SameLeading(s: string, t: string)
    requires |s| == |t|
    requires forall i :: 0 <= i < |s| ==> (IsSpace(s[i]) <==> IsSpace(t[i]))
    ensures LeadingSpaces(s) == LeadingSpaces(t)
  {
    if s != [] && IsSpace(s[0]) {
      SameLeading(s[1..], t[1..]);
    }
  }

  /** Strings with whitespace in the same places end with as much of it. */
  lemma {:induction false} SameTrailing(s: string, t: string)
    requires |s| == |t|
    requires forall i :: 0 <= i < |s| ==> (IsSpace(s[i]) <==> IsSpace(t[i]))
    ensures TrailingSpaces(s) == TrailingSpaces(t)
  {
    if s != [] && IsSpace(s[|s| - 1]) {
      SameTrailing(s[..|s| - 1], t[..|t| - 1]);
    }
  }

  // ---------------------------------------------------------------------
  // Prefixes and substrings
  // ---------------------------------------------------------------------

  /** `s.startsWith(prefix)`. */
  predicate StartsWith(s: string, prefix: string) {
    |prefix| <= |s| && s[..|prefix|] == prefix
  }

  /** `sub` occurs in `s` at position `k`. */
  predicate OccursAt(s: string, sub: string, k: int) {
    0 <= k && k + |sub| <= |s| && s[k..k + |sub|] == sub
  }

  /** `s.includes(sub)`: `sub` occurs at some position of `s`. */
  function Contains(s: string, sub: string): (r: bool)
    ensures r <==> exists k :: OccursAt(s, sub, k)
  {
    if StartsWith(s, sub) then
      assert OccursAt(s, sub, 0);
      true
    else if s == [] then
      assert forall k :: !OccursAt(s, sub, k);
      false
    else
      assert !OccursAt(s, sub, 0);
      assert forall k :: OccursAt(s[1..], sub, k) <==> OccursAt(s, sub, k + 1);
      assert forall k :: OccursAt(s, sub, k) ==> OccursAt(s[1..], sub, k - 1);
      Contains(s[1..], sub)
  }

  // ---------------------------------------------------------------------
  // Splitting on one character
  // ---------------------------------------------------------------------

  /** `s.split(sep)` for a one-character separator: always at least one
      segment, and no segment contains the separator. */
  function Split(s: string, sep: char): (r: seq<string>)
    ensures |r| >= 1
    ensures forall i :: 0 <= i < |r| ==> sep !in r[i]
  {
    if s == [] then [[]]
    else
      var rest := Split(s[1..], sep);
      if s[0] == sep then [[]] + rest
      else [[s[0]] + rest[0]] + rest[1..]
  }

  /** `segments.join(sep)`. */
  function Join(segments: seq<string>, sep: char): string
    requires |segments| >= 1
  {
    if |segments| == 1 then segments[0]
    else segments[0] + [sep] + Join(segments[1..], sep)
  }

  /** Joining the segments of a split gives back the string. */
  lemma {:induction false} JoinSplit(s: string, sep: char)
    ensures Join(Split(s, sep), sep) == s
  {
    if s != [] {
      var rest := Split(s[1..], sep);
      JoinSplit(s[1..], sep);
      if s[0] != sep {
        var r := Split(s, sep);
        assert r[0] == [s[0]] + rest[0];
        if |rest| == 1 {
          assert r == [[s[0]] + rest[0]];
        } else {
          assert r[1..] == rest[1..];
          assert Join(rest, sep) == rest[0] + [sep] + Join(rest[1..], sep);
        }
      }
    }
  }

  /** Splitting a join of separator-free segments gives back the segments. */
  lemma {:induction false} SplitJoin(segments: seq<string>, sep: char)
    requires |segments| >= 1
    requires forall i :: 0 <= i < |segments| ==> sep !in segments[i]
    ensures Split(Join(segments, sep), sep) == segments
  {
    if |segments| == 1 {
      SplitFree(segments[0], sep);
    } else {
      SplitJoin(segments[1..], sep);
      SplitConcat(segments[0], Join(segments[1..], sep), sep);
      SplitFree(segments[0], sep);
      assert segments == [segments[0]] + segments[1..];
    }
  }

  /** A string without the separator is a single segment. */
  lemma {:induction false} SplitFree(s: string, sep: char)
    requires sep !in s
    ensures Split(s, sep) == [s]
  {
    if s != [] {
      SplitFree(s[1..], sep);
      assert [s[0]] + s[1..] == s;
    }
  }

  /** A separator between two strings separates their segments. */
  lemma {:induction false} SplitConcat(a: string, b: string, sep: char)
    ensures Split(a + [sep] + b, sep) == Split(a, sep) + Split(b, sep)
  {
    var s := a + [sep] + b;
    if a == [] {
      assert s[1..] == b;
    } else {
      assert s[1..] == a[1..] + [sep] + b;
      SplitConcat(a[1..], b, sep);
    }
  }

  // ---------------------------------------------------------------------
  // Decimal digits
  // ---------------------------------------------------------------------

  predicate IsDigit(c: char) { '0' <= c <= '9' }

  predicate AllDigits(s: string) {
    forall i :: 0 <= i < |s| ==> IsDigit(s[i])
  }

  function DigitValue(c: char): (r: nat)
    requires IsDigit(c)
    ensures r < 10
  {
    c as int - '0' as int
  }

  function DigitChar(d: nat): (r: char)
    requires d < 10
    ensures IsDigit(r) && DigitValue(r) == d
  {
    ('0' as int + d) as char
  }

  /** The value of a string of decimal digits, most significant first. */
  function DigitsValue(s: string): nat
    requires AllDigits(s)
  {
    if s == [] then 0 else DigitsValue(s[..|s| - 1]) * 10 + DigitValue(s[|s| - 1])
  }

  /** The decimal representation of `n`, as a template literal prints it. */
  function NatToString(n: nat): (r: string)
    ensures |r| >= 1 && AllDigits(r)
  {
    if n < 10 then [DigitChar(n)] else NatToString(n / 10) + [DigitChar(n % 10)]
  }

  /** Reading back the decimal representation of `n` gives `n`. */
  lemma {:induction false} NatToStringValue(n: nat)
    ensures DigitsValue(NatToString(n)) == n
  {
    var r := NatToString(n);
    if n >= 10 {
      NatToStringValue(n / 10);
      assert r[..|r| - 1] == NatToString(n / 10);
    } else {
      assert r[..0] == [];
    }
  }

  /** The length of the longest prefix of `s` made of digits. */
  function DigitRun(s: string): (r: nat)
    ensures r <= |s| && AllDigits(s[..r])
    ensures r < |s| ==> !IsDigit(s[r])
  {
    if s != [] && IsDigit(s[0]) then
      var k := DigitRun(s[1..]);
      assert s[..k + 1] == [s[0]] + s[1..][..k];
      k + 1
    else 0
  }

  /** `parseInt(s)` with the default radix: leading whitespace, an optional
      sign, then the longest run of decimal digits; no digit is NaN (`None`). */
  function ParseInt(s: string): (r: Option<int>)
    ensures r.None? <==> (var t := s[LeadingSpaces(s)..];
                          var u := if t != [] && (t[0] == '+' || t[0] == '-') then t[1..] else t;
                          u == [] || !IsDigit(u[0]))
  {
    var t := s[LeadingSpaces(s)..];
    var negative := t != [] && t[0] == '-';
    var u := if t != [] && (t[0] == '+' || t[0] == '-') then t[1..] else t;
    var k := DigitRun(u);
    if k == 0 then None
    else
      var v: int := DigitsValue(u[..k]);
      Some(if negative then -v else v)
  }

  /** A string of digits parses to its value. */
  lemma ParseIntDigits(s: string)
    requires s != [] && AllDigits(s)
    ensures ParseInt(s) == Some(DigitsValue(s) as int)
  {
    assert LeadingSpaces(s) == 0 by {
      assert !IsSpace(s[0]);
    }
    var k := DigitRun(s);
    assert k == |s|;
    assert s[..k] == s;
  }

  /** Blanks before a non-blank string are exactly its leading spaces. */
  lemma {:induction false} LeadingSpacesOfBlankPrefix(w: string, t: string)
    requires AllSpace(w) && t != [] && !IsSpace(t[0])
    ensures LeadingSpaces(w + t) == |w|
  {
    if w != [] {
      assert (w + t)[1..] == w[1..] + t;
      LeadingSpacesOfBlankPrefix(w[1..], t);
    } else {
      assert w + t == t;
    }
  }

  /** The digit run of digits followed by a non-digit is those digits. */
  lemma {:induction false} DigitRunOfDigits(d: string, x: string)
    requires AllDigits(d)
    requires x == [] || !IsDigit(x[0])
    ensures DigitRun(d + x) == |d| && (d + x)[..|d|] == d
  {
    if d != [] {
      assert (d + x)[1..] == d[1..] + x;
      DigitRunOfDigits(d[1..], x);
    } else {
      assert d + x == x;
    }
  }

  /** `parseInt` reads leading whitespace, an optional sign and the digits
      up to the first non-digit, and ignores the rest: so `" -12px"` is -12
      and `"3.75"` is 3. */
  lemma ParseIntPrefix(w: string, sign: string, d: string, x: string)
    requires AllSpace(w)
    requires sign == "" || sign == "+" || sign == "-"
    requires d != [] && AllDigits(d)
    requires x == [] || !IsDigit(x[0])
    ensures ParseInt(w + sign + d + x) ==
      Some(if sign == "-" then -(DigitsValue(d) as int) else DigitsValue(d) as int)
  {
    var t := sign + d + x;
    assert w + sign + d + x == w + t;
    assert t[0] == if sign == "" then d[0] else sign[0];
    ParseIntAfterBlanks(w, t);
    ParseIntSigned(sign, d, x);
  }

  /** Leading whitespace does not change what `parseInt` reads. */
  lemma ParseIntAfterBlanks(w: string, t: string)
    requires AllSpace(w) && t != [] && !IsSpace(t[0])
    ensures ParseInt(w + t) == ParseInt(t)
  {
    LeadingSpacesOfBlankPrefix(w, t);
    assert (w + t)[|w|..] == t;
    assert LeadingSpaces(t) == 0 && t[0..] == t;
  }

  /** A sign, digits, then a non-digit or nothing. */
  lemma ParseIntSigned(sign: string, d: string, x: string)
    requires sign == "" || sign == "+" || sign == "-"
    requires d != [] && AllDigits(d)
    requires x == [] || !IsDigit(x[0])
    ensures ParseInt(sign + d + x) ==
      Some(if sign == "-" then -(DigitsValue(d) as int) else DigitsValue(d) as int)
  {
    if sign == "" {
      assert sign + d + x == d + x;
      ParseIntDigitsThen(d, x);
    } else {
      ParseIntAfterSign(sign[0], d, x);
      assert sign == [sign[0]];
    }
  }

  lemma ParseIntAfterSign(c: char, d: string, x: string)
    requires c == '+' || c == '-'
    requires d != [] && AllDigits(d)
    requires x == [] || !IsDigit(x[0])
    ensures ParseInt([c] + d + x) ==
      Some(if c == '-' then -(DigitsValue(d) as int) else DigitsValue(d) as int)
  {
    SignThenDigits(c, d, x);
    ParseIntSignedDigits([c] + d + x, |d|);
  }

  /** The parts of a sign, digits and a non-digit tail. */
  lemma SignThenDigits(c: char, d: string, x: string)
    requires AllDigits(d)
    requires x == [] || !IsDigit(x[0])
    ensures var t := [c] + d + x;
      |t| > |d| && t[0] == c && DigitRun(t[1..]) == |d| && t[1..][..|d|] == d
  {
    var t := [c] + d + x;
    assert t[1..] == d + x;
    DigitRunOfDigits(d, x);
  }

  /** A sign followed by exactly `k` digits and then a non-digit or nothing. */
  lemma ParseIntSignedDigits(t: string, k: nat)
    requires |t| > k > 0 && (t[0] == '+' || t[0] == '-')
    requires DigitRun(t[1..]) == k
    ensures ParseInt(t) ==
      var v: int := DigitsValue(t[1..][..k]);
      Some(if t[0] == '-' then -v else v)
  {
    assert LeadingSpaces(t) == 0 && t[0..] == t;
  }

  /** Digits then a non-digit or nothing. */
  lemma ParseIntDigitsThen(d: string, x: string)
    requires d != [] && AllDigits(d)
    requires x == [] || !IsDigit(x[0])
    ensures ParseInt(d + x) == Some(DigitsValue(d) as int)
  {
    var u := d + x;
    assert !IsSpace(u[0]) && u[0] != '+' && u[0] != '-';
    assert LeadingSpaces(u) == 0 && u[0..] == u;
    DigitRunOfDigits(d, x);
  }

  // ---------------------------------------------------------------------
  // The numeric strings `isNaN` accepts
  // ---------------------------------------------------------------------

  /** The index of the first exponent mark (`e` or `E`) in `s`, or `|s|`. */
  function ExponentIndex(s: string): (r: nat)
    ensures r <= |s|
    ensures forall i :: 0 <= i < r ==> s[i] != 'e' && s[i] != 'E'
    ensures r < |s| ==> s[r] == 'e' || s[r] == 'E'
  {
    if s == [] || s[0] == 'e' || s[0] == 'E' then 0 else ExponentIndex(s[1..]) + 1
  }

  /** `e`/`E`, an optional sign, then at least one digit. */
  predicate IsExponentPart(s: string) {
    |s| >= 2 && (s[0] == 'e' || s[0] == 'E') &&
    var t := if s[1] == '+' || s[1] == '-' then s[2..] else s[1..];
    t != [] && AllDigits(t)
  }

  /** Digits with at most one decimal point and at least one digit. */
  predicate IsMantissa(m: string) {
    var parts := Split(m, '.');
    (|parts| == 1 && parts[0] != [] && AllDigits(parts[0])) ||
    (|parts| == 2 && AllDigits(parts[0]) && AllDigits(parts[1]) && parts[0] + parts[1] != [])
  }

  /** An unsigned decimal literal: `Infinity`, or a mantissa with an
      optional exponent part. */
  predicate IsUnsignedDecimal(u: string) {
    u == "Infinity" ||
    var k := ExponentIndex(u);
    IsMantissa(u[..k]) && (k == |u| || IsExponentPart(u[k..]))
  }

  /** `!isNaN(s)` for a string `s`: after trimming, either nothing (which
      converts to 0) or an optionally signed decimal literal. */
  predicate IsNumeric(s: string) {
    var t := Trim(s);
    t == [] ||
    var u := if t[0] == '+' || t[0] == '-' then t[1..] else t;
    IsUnsignedDecimal(u)
  }

  /** Every non-empty digit string is numeric. */
  lemma DigitsAreNumeric(s: string)
    requires s != [] && AllDigits(s)
    ensures IsNumeric(s)
  {
    assert !IsSpace(s[0]) && !IsSpace(s[|s| - 1]);
    TrimOfTrimmed(s);
    var k := ExponentIndex(s);
    assert s[..k] == s;
    assert '.' !in s;
    SplitFree(s, '.');
  }
}
