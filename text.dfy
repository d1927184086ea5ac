/**
 * The string primitives of Rust's `str` that the proxy checker relies on:
 * `to_lowercase`, `trim`, `contains`, `find`, `split(char)`, and the decimal
 * conversions behind `u16::from_str` and `u16::to_string`.
 */
module Text {
  import opened Wrappers

  // ---------------------------------------------------------------------------
  // Lower-casing
  // ---------------------------------------------------------------------------

  /** Lower-casing of one character, restricted to the characters whose Rust
      lower-case form is ASCII: `A`-`Z`, and the Kelvin sign, which becomes `k`. */
  function LowerChar(c: char): (l: char)
    ensures 'A' <= c <= 'Z' ==> 'a' <= l <= 'z'
    ensures l == c || 'A' <= c <= 'Z' || c == '\U{212A}'
  {
    if 'A' <= c <= 'Z' then (c as int + 32) as char
    else if c == '\U{212A}' then 'k'
    else c
  }

  function ToLower(s: string): (l: string)
    ensures |l| == |s|
    ensures forall i :: 0 <= i < |s| ==> l[i] == LowerChar(s[i])
  {
    seq(|s|, i requires 0 <= i < |s| => LowerChar(s[i]))
  }

  /** Lower-casing twice is lower-casing once. */
  lemma ToLowerIdempotent(s: string)
    ensures ToLower(ToLower(s)) == ToLower(s)
  {
    var once := ToLower(s);
    var twice := ToLower(once);
    forall i | 0 <= i < |s|
      ensures twice[i] == once[i]
    {
      assert LowerChar(LowerChar(s[i])) == LowerChar(s[i]);
    }
  }

  // ---------------------------------------------------------------------------
  // Trimming: Rust's `char::is_whitespace` is the Unicode White_Space property
  // ---------------------------------------------------------------------------

  predicate IsWhitespace(c: char) {
    || ('\t' <= c <= '\r')
    || c == ' '
    || c == '\U{0085}'
    || c == '\U{00A0}'
    || c == '\U{1680}'
    || ('\U{2000}' <= c <= '\U{200A}')
    || c == '\U{2028}'
    || c == '\U{2029}'
    || c == '\U{202F}'
    || c == '\U{205F}'
    || c == '\U{3000}'
  }

  /** `str::trim_start`: drops the whitespace prefix, keeps the rest verbatim. */
  function TrimStart(s: string): (r: string)
    ensures |r| <= |s| && r == s[|s| - |r|..]
    ensures forall k :: 0 <= k < |s| - |r| ==> IsWhitespace(s[k])
    ensures r == [] || !IsWhitespace(r[0])
    decreases |s|
  {
    if s != [] && IsWhitespace(s[0]) then TrimStart(s[1..]) else s
  }

  /** `str::trim_end`: drops the whitespace suffix, keeps the rest verbatim. */
  function TrimEnd(s: string): (r: string)
    ensures |r| <= |s| && r == s[..|r|]
    ensures forall k :: |r| <= k < |s| ==> IsWhitespace(s[k])
    ensures r == [] || !IsWhitespace(r[|r| - 1])
    decreases |s|
  {
    if s != [] && IsWhitespace(s[|s| - 1]) then TrimEnd(s[..|s| - 1]) else s
  }

  /** `r` is `s` with a whitespace prefix of length `a` and a whitespace
      suffix cut off. */
  predicate StripsTo(s: string, a: int, r: string) {
    && 0 <= a <= |s| - |r|
    && r == s[a..a + |r|]
    && (forall k :: 0 <= k < a ==> IsWhitespace(s[k]))
    && (forall k :: a + |r| <= k < |s| ==> IsWhitespace(s[k]))
  }

  /** `str::trim`: `s` with its whitespace prefix and suffix cut off, so that
      what remains neither starts nor ends with whitespace. */
  function Trim(s: string): (r: string)
    ensures |r| <= |s|
    ensures exists a :: StripsTo(s, a, r)
    ensures r == [] || (!IsWhitespace(r[0]) && !IsWhitespace(r[|r| - 1]))
    ensures forall c :: c in r ==> c in s
  {
    TrimStartEnd(s);
    TrimStartEndChars(s);
    TrimEnd(TrimStart(s))
  }

  lemma {:induction false} TrimStartEndChars(s: string)
    ensures forall c :: c in TrimEnd(TrimStart(s)) ==> c in s
  {
    PrefixOfSuffix(s, TrimStart(s), TrimEnd(TrimStart(s)));
  }

  lemma {:induction false} TrimStartEnd(s: string)
    ensures StripsTo(s, |s| - |TrimStart(s)|, TrimEnd(TrimStart(s)))
  {
    StripBothEnds(s, TrimStart(s), TrimEnd(TrimStart(s)));
  }

  /** Cutting a whitespace prefix and then a whitespace suffix strips `s` to
      what remains. */
  lemma StripBothEnds(s: string, t: string, r: string)
    requires |t| <= |s| && t == s[|s| - |t|..]
    requires forall k :: 0 <= k < |s| - |t| ==> IsWhitespace(s[k])
    requires |r| <= |t| && r == t[..|r|]
    requires forall k :: |r| <= k < |t| ==> IsWhitespace(t[k])
    ensures StripsTo(s, |s| - |t|, r)
  {
    var a := |s| - |t|;
    PrefixOfSuffix(s, t, r);
    forall k | a + |r| <= k < |s|
      ensures IsWhitespace(s[k])
    {
      assert s[k] == t[k - a];
    }
  }

  /** A prefix `r` of a suffix `t` of `s` is the infix of `s` that starts where
      `t` does, and the rest of `s` after it is the rest of `t`. */
  lemma PrefixOfSuffix<T>(s: seq<T>, t: seq<T>, r: seq<T>)
    requires |t| <= |s| && t == s[|s| - |t|..]
    requires |r| <= |t| && r == t[..|r|]
    ensures r == s[|s| - |t|..|s| - |t| + |r|]
    ensures forall k :: |s| - |t| + |r| <= k < |s| ==> s[k] == t[k - (|s| - |t|)]
    ensures forall x :: x in r ==> x in s
  {
  }

  /** Trimming a string that has no whitespace at either end leaves it unchanged. */
  lemma TrimUntouched(s: string)
    requires s == [] || (!IsWhitespace(s[0]) && !IsWhitespace(s[|s| - 1]))
    ensures Trim(s) == s
  {
    assert TrimStart(s) == s;
    assert TrimEnd(s) == s;
  }

  /** `trim` is idempotent. */
  lemma TrimIdempotent(s: string)
    ensures Trim(Trim(s)) == Trim(s)
  {
    TrimUntouched(Trim(s));
  }

  // ---------------------------------------------------------------------------
  // Substring search: `str::contains` and `str::find`
  // ---------------------------------------------------------------------------

  predicate OccursAt(s: string, pat: string, i: int) {
    0 <= i && i + |pat| <= |s| && s[i..i + |pat|] == pat
  }

  /** `pat` is a substring of `s` (the independent definition). */
  ghost predicate IsSubstring(pat: string, s: string) {
    exists i :: OccursAt(s, pat, i)
  }

  lemma OccursAtShift(s: string, pat: string, i: int)
    requires s != [] && 0 <= i
    ensures OccursAt(s[1..], pat, i) <==> OccursAt(s, pat, i + 1)
  {
    if 0 <= i && i + |pat| <= |s| - 1 {
      assert s[1..][i..i + |pat|] == s[i + 1..i + 1 + |pat|];
    }
  }

  /** A match in `s` is a match at its first position or a match in its tail. */
  lemma SubstringStep(s: string, pat: string)
    requires |pat| <= |s| && s != []
    ensures IsSubstring(pat, s) <==> (s[..|pat|] == pat || IsSubstring(pat, s[1..]))
  {
    if IsSubstring(pat, s) {
      var i :| OccursAt(s, pat, i);
      if i > 0 {
        OccursAtShift(s, pat, i - 1);
      }
    }
    if IsSubstring(pat, s[1..]) {
      var i :| OccursAt(s[1..], pat, i);
      OccursAtShift(s, pat, i);
    }
    if s[..|pat|] == pat {
      assert OccursAt(s, pat, 0);
    }
  }

  /** `str::contains`, by scanning left to right. */
  function Contains(s: string, pat: string): (b: bool)
    ensures b <==> IsSubstring(pat, s)
    decreases |s|
  {
    if |s| < |pat| then false
    else if s == [] then
      assert OccursAt(s, pat, 0);
      true
    else
      SubstringStep(s, pat);
      s[..|pat|] == pat || Contains(s[1..], pat)
  }

  /** A substring of a substring is a substring. */
  lemma {:induction false} SubstringTransitive(a: string, b: string, c: string)
    requires IsSubstring(a, b) && IsSubstring(b, c)
    ensures IsSubstring(a, c)
  {
    var i :| OccursAt(b, a, i);
    var j :| OccursAt(c, b, j);
    forall k | 0 <= k < |a|
      ensures c[j + i + k] == a[k]
    {
      assert a[k] == b[i + k] == c[j..j + |b|][i + k];
    }
    assert c[j + i..j + i + |a|] == a;
    assert OccursAt(c, a, j + i);
  }

  function FindFrom(s: string, pat: string, from: nat): (r: Option<nat>)
    requires from <= |s|
    ensures r.Some? ==> from <= r.value && OccursAt(s, pat, r.value)
    ensures r.Some? ==> forall j :: from <= j < r.value ==> !OccursAt(s, pat, j)
    ensures r.None? ==> forall j :: from <= j ==> !OccursAt(s, pat, j)
    decreases |s| - from
  {
    if from + |pat| > |s| then None
    else if s[from..from + |pat|] == pat then Some(from)
    else if from == |s| then None
    else FindFrom(s, pat, from + 1)
  }

  /** `str::find`: the index of the first occurrence of `pat` in `s`. */
  function Find(s: string, pat: string): (r: Option<nat>)
    ensures r.Some? ==> OccursAt(s, pat, r.value)
    ensures r.Some? ==> forall j :: 0 <= j < r.value ==> !OccursAt(s, pat, j)
    ensures r.None? <==> !IsSubstring(pat, s)
  {
    FindFrom(s, pat, 0)
  }

  // ---------------------------------------------------------------------------
  // Splitting on one character: `str::split(char)`
  // ---------------------------------------------------------------------------

  /** The number of occurrences of `c` in `s`. */
  function Count(s: string, c: char): nat {
    multiset(s)[c]
  }

  function IndexOfChar(s: string, c: char): (r: Option<nat>)
    ensures r.Some? ==> r.value < |s| && s[r.value] == c
    ensures r.Some? ==> forall k :: 0 <= k < r.value ==> s[k] != c
    ensures r.None? <==> c !in s
    decreases |s|
  {
    if s == [] then None
    else if s[0] == c then Some(0)
    else match IndexOfChar(s[1..], c)
      case None => None
      case Some(i) => Some(i + 1)
  }

  /** `Join(parts, sep)` glues the parts back together with `sep` between them. */
  function Join(parts: seq<string>, sep: char): string {
    if |parts| == 0 then []
    else if |parts| == 1 then parts[0]
    else parts[0] + [sep] + Join(parts[1..], sep)
  }

  /** `s.split(sep)`: the maximal pieces of `s` between occurrences of `sep`,
      one more piece than there are separators, including empty pieces. */
  function Split(s: string, sep: char): (parts: seq<string>)
    ensures |parts| == Count(s, sep) + 1
    ensures forall k :: 0 <= k < |parts| ==> sep !in parts[k]
    ensures Join(parts, sep) == s
    decreases |s|
  {
    match IndexOfChar(s, sep)
    case None => [s]
    case Some(i) =>
      var rest := Split(s[i + 1..], sep);
      assert s == s[..i] + [sep] + s[i + 1..];
      assert multiset(s) == multiset(s[..i]) + multiset{sep} + multiset(s[i + 1..]);
      assert ([s[..i]] + rest)[1..] == rest;
      [s[..i]] + rest
  }

  /** Splitting at the first separator: the piece before it, then the split of the rest. */
  lemma SplitFirst(a: string, sep: char, b: string)
    requires sep !in a
    ensures Split(a + [sep] + b, sep) == [a] + Split(b, sep)
  {
    var s := a + [sep] + b;
    assert s[|a|] == sep;
    assert forall k :: 0 <= k < |a| ==> s[k] == a[k] && s[k] != sep;
    assert IndexOfChar(s, sep) == Some(|a|);
    assert s[..|a|] == a;
    assert s[|a| + 1..] == b;
  }

  /** A string without the separator splits into itself alone. */
  lemma SplitNone(a: string, sep: char)
    requires sep !in a
    ensures Split(a, sep) == [a]
  {
  }
  lemma ConcatAssoc<T>(x: seq<T>, y: seq<T>, z: seq<T>)
    ensures x + (y + z) == (x + y) + z
  {
  }

  /** Splitting text glued at a separator splits each side: no piece crosses it. */
  lemma {:induction false} SplitConcat(a: string, sep: char, b: string)
    ensures Split(a + [sep] + b, sep) == Split(a, sep) + Split(b, sep)
    decreases |a|
  {
    if sep !in a {
      SplitFirst(a, sep, b);
      SplitNone(a, sep);
    } else {
      var i := IndexOfChar(a, sep).value;
      var a1, a2 := a[..i], a[i + 1..];
      SplitAtFirst(a, sep, b, i);
      SplitConcat(a2, sep, b);
      ConcatAssoc([a1], Split(a2, sep), Split(b, sep));
    }
  }

  /** The first separator of `a` is also the first of `a + [sep] + b`. */
  lemma SplitAtFirst(a: string, sep: char, b: string, i: nat)
    requires IndexOfChar(a, sep) == Some(i)
    ensures Split(a, sep) == [a[..i]] + Split(a[i + 1..], sep)
    ensures Split(a + [sep] + b, sep) == [a[..i]] + Split(a[i + 1..] + [sep] + b, sep)
  {
    var a1, a2 := a[..i], a[i + 1..];
    assert sep !in a1 by {
      assert forall k :: 0 <= k < |a1| ==> a1[k] == a[k];
    }
    var ab := a + [sep] + b;
    assert ab == a1 + [sep] + (a2 + [sep] + b);
    SplitFirst(a1, sep, a2 + [sep] + b);
  }

  /** Splitting undoes joining, when no part holds the separator. */
  lemma {:induction false} SplitJoin(parts: seq<string>, sep: char)
    requires |parts| >= 1
    requires forall k :: 0 <= k < |parts| ==> sep !in parts[k]
    ensures Split(Join(parts, sep), sep) == parts
  {
    if |parts| == 1 {
      SplitNone(parts[0], sep);
    } else {
      SplitJoin(parts[1..], sep);
      SplitFirst(parts[0], sep, Join(parts[1..], sep));
      assert [parts[0]] + parts[1..] == parts;
    }
  }


  // ---------------------------------------------------------------------------
  // Decimal numerals
  // ---------------------------------------------------------------------------

  predicate IsDigit(c: char) {
    '0' <= c <= '9'
  }

  predicate AllDigits(s: string) {
    forall i :: 0 <= i < |s| ==> IsDigit(s[i])
  }

  function DigitChar(d: nat): (c: char)
    requires d < 10
    ensures IsDigit(c)
  {
    ('0' as int + d) as char
  }

  /** The value of a string of decimal digits, most significant first. */
  function DecimalValue(s: string): nat
    requires AllDigits(s)
  {
    if s == [] then 0
    else DecimalValue(s[..|s| - 1]) * 10 + (s[|s| - 1] as int - '0' as int)
  }

  /** `u*::to_string`: the canonical decimal numeral of `n`, without leading zeros. */
  function NatToString(n: nat): (s: string)
    ensures |s| >= 1 && AllDigits(s)
    ensures DecimalValue(s) == n
    ensures |s| > 1 ==> s[0] != '0'
  {
    if n < 10 then [DigitChar(n)]
    else
      var prefix := NatToString(n / 10);
      var s := prefix + [DigitChar(n % 10)];
      assert s[..|s| - 1] == prefix;
      s
  }

  /** `s.parse::<u16>()`: an optional `+`, then one or more ASCII digits whose
      value fits in 16 bits; leading zeros are allowed. */
  function ParseU16(s: string): (r: Option<nat>)
    ensures r.Some? ==> r.value <= 65535
  {
    var digits := if |s| > 0 && s[0] == '+' then s[1..] else s;
    if digits == [] || !AllDigits(digits) then None
    else
      var v := DecimalValue(digits);
      if v <= 65535 then Some(v) else None
  }

  /** Parsing what `to_string` printed gives the number back when it fits in 16
      bits, and fails when it does not. */
  lemma ParseU16OfNatToString(n: nat)
    ensures n <= 65535 ==> ParseU16(NatToString(n)) == Some(n)
    ensures n > 65535 ==> ParseU16(NatToString(n)) == None
  {
    var s := NatToString(n);
    assert s[0] != '+';
  }

  /** A string of zeros denotes zero. */
  lemma {:induction false} ZerosValue(z: string)
    requires forall k :: 0 <= k < |z| ==> z[k] == '0'
    ensures AllDigits(z) && DecimalValue(z) == 0
  {
    if z != [] {
      ZerosValue(z[..|z| - 1]);
    }
  }

  /** Leading zeros do not change the value of a numeral. */
  lemma {:induction false} LeadingZerosValue(z: string, d: string)
    requires forall k :: 0 <= k < |z| ==> z[k] == '0'
    requires AllDigits(d)
    ensures AllDigits(z + d) && DecimalValue(z + d) == DecimalValue(d)
    decreases |d|
  {
    if d == [] {
      assert z + d == z;
      ZerosValue(z);
    } else {
      var init := d[..|d| - 1];
      LeadingZerosValue(z, init);
      assert (z + d)[..|z + d| - 1] == z + init;
    }
  }

  predicate AllZeros(z: string) {
    forall k :: 0 <= k < |z| ==> z[k] == '0'
  }

  /** A numeral whose first digit is not 0 denotes at least 1. */
  lemma {:induction false} NoLeadingZeroPositive(d: string)
    requires d != [] && AllDigits(d) && d[0] != '0'
    ensures DecimalValue(d) >= 1
    decreases |d|
  {
    if |d| > 1 {
      NoLeadingZeroPositive(d[..|d| - 1]);
    }
  }

  /** A numeral without leading zeros is the one `to_string` prints for its value. */
  lemma {:induction false} CanonicalNumeral(d: string)
    requires d != [] && AllDigits(d) && (|d| == 1 || d[0] != '0')
    ensures NatToString(DecimalValue(d)) == d
    decreases |d|
  {
    var init := d[..|d| - 1];
    if |d| > 1 {
      CanonicalNumeral(init);
      NoLeadingZeroPositive(init);
      var v := DecimalValue(d);
      assert v / 10 == DecimalValue(init) && v % 10 == d[|d| - 1] as int - '0' as int;
      assert d == init + [d[|d| - 1]];
    } else {
      assert DecimalValue(init) == 0;
    }
  }

  /** Every numeral is some zeros followed by the canonical numeral of its value. */
  lemma {:induction false} ZerosThenCanonical(d: string) returns (z: string)
    requires d != [] && AllDigits(d)
    ensures AllZeros(z) && d == z + NatToString(DecimalValue(d))
    decreases |d|
  {
    if |d| > 1 && d[0] == '0' {
      var rest := d[1..];
      var z' := ZerosThenCanonical(rest);
      var n := NatToString(DecimalValue(rest));
      assert d == "0" + rest;
      LeadingZerosValue("0", rest);
      z := "0" + z';
      assert d == z + n;
    } else {
      CanonicalNumeral(d);
      z := [];
    }
  }

  /** What `parse::<u16>` accepts is an optional `+`, zeros, and the canonical
      numeral of the value it returns. */
  lemma ParseU16Accepted(s: string, v: nat) returns (z: string)
    requires ParseU16(s) == Some(v)
    ensures v <= 65535 && AllZeros(z) && (s == z + NatToString(v) || s == "+" + z + NatToString(v))
  {
    var digits := if |s| > 0 && s[0] == '+' then s[1..] else s;
    z := ZerosThenCanonical(digits);
    if |s| > 0 && s[0] == '+' {
      assert s == "+" + digits;
    }
  }

  /** An optional `+`, zeros, and the canonical numeral of a value up to
      65535 parse to that value. */
  lemma ParseU16OfPadded(s: string, z: string, v: nat)
    requires v <= 65535 && AllZeros(z)
    requires s == z + NatToString(v) || s == "+" + z + NatToString(v)
    ensures ParseU16(s) == Some(v)
  {
    var d := z + NatToString(v);
    LeadingZerosValue(z, NatToString(v));
    if s == d {
      assert IsDigit(d[0]);
    } else {
      assert s[1..] == d;
    }
  }

  /** `s.parse::<u16>()` accepts exactly an optional `+`, any number of zeros
      and the canonical numeral of a value up to 65535, and returns that value. */
  lemma ParseU16Exactly(s: string, v: nat)
    ensures ParseU16(s) == Some(v) <==>
              v <= 65535 && exists z :: AllZeros(z) && (s == z + NatToString(v) || s == "+" + z + NatToString(v))
  {
    if ParseU16(s) == Some(v) {
      var z := ParseU16Accepted(s, v);
    }
    if v <= 65535 && exists z :: AllZeros(z) && (s == z + NatToString(v) || s == "+" + z + NatToString(v)) {
      var z :| AllZeros(z) && (s == z + NatToString(v) || s == "+" + z + NatToString(v));
      ParseU16OfPadded(s, z, v);
    }
  }
}
