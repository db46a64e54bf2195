/** String primitives the source relies on: Rust's `{}` formatting of
    integers, `str::parse::<u16>()` / `str::parse::<i16>()`, `str::trim`,
    and Python's ordering of `str` values. */
module Text {
  import opened Types

  predicate IsDigit(c: char) {
    '0' <= c <= '9'
  }

  predicate AllDigits(s: string) {
    forall k :: 0 <= k < |s| ==> IsDigit(s[k])
  }

  function DigitChar(d: nat): (c: char)
    requires d < 10
    ensures IsDigit(c) && (c as int) - ('0' as int) == d
  {
    ['0', '1', '2', '3', '4', '5', '6', '7', '8', '9'][d]
  }

  /** The value of a string of decimal digits, most significant first. */
  function DigitsValue(s: string): nat
    requires AllDigits(s)
  {
    if s == [] then 0
    else DigitsValue(s[..|s| - 1]) * 10 + ((s[|s| - 1] as int) - ('0' as int))
  }

  /** Rust's `format!("{}", n)` for an unsigned integer. */
  function NatToString(n: nat): (r: string)
    ensures |r| > 0 && AllDigits(r)
    ensures DigitsValue(r) == n
  {
    if n < 10 then [DigitChar(n)]
    else
      var prefix := NatToString(n / 10);
      var last := DigitChar(n % 10);
      assert (prefix + [last])[..|prefix|] == prefix;
      prefix + [last]
  }

  lemma NatToStringInjective(m: nat, n: nat)
    requires NatToString(m) == NatToString(n)
    ensures m == n
  {
  }

  /** A non-empty all-digit string, else None. */
  function ParseDigits(s: string): (r: Option<nat>)
    ensures r.Some? <==> |s| > 0 && AllDigits(s)
  {
    if |s| > 0 && AllDigits(s) then Some(DigitsValue(s)) else None
  }

  /** The digits of an unsigned Rust integer literal: one optional leading '+'. */
  function ParseUnsigned(s: string): Option<nat> {
    if |s| > 0 && s[0] == '+' then ParseDigits(s[1..]) else ParseDigits(s)
  }

  /** `s.parse::<u16>()`: Ok(n) as Some(n), any error as None. */
  function ParseU16(s: string): (r: Option<u16>)
    ensures r.Some? ==> ParseUnsigned(s) == Some(r.value as nat)
    ensures r.None? ==> ParseUnsigned(s).None? || ParseUnsigned(s).value >= U16_LIMIT
  {
    match ParseUnsigned(s)
    case None => None
    case Some(n) => if n < U16_LIMIT then Some(n) else None
  }

  /** `s.parse::<i16>()`: a leading '-' is accepted as well as '+'. */
  function ParseI16(s: string): (r: Option<int>)
    ensures r.Some? ==> -0x8000 <= r.value < 0x8000
  {
    if |s| > 0 && s[0] == '-' then
      match ParseDigits(s[1..])
      case None => None
      case Some(n) => if n <= 0x8000 then Some(0 - n) else None
    else
      match ParseUnsigned(s)
      case None => None
      case Some(n) => if n < 0x8000 then Some(n) else None
  }

  /** Printing a u16 and parsing it back gives the number again. */
  lemma ParseU16OfNatToString(n: u16)
    ensures ParseU16(NatToString(n)) == Some(n)
  {
    var s := NatToString(n);
    assert s[0] != '+' by { assert IsDigit(s[0]); }
  }

  /** A printed number parses back to itself, with or without a '+'. */
  lemma ParseUnsignedOfNatToString(n: nat)
    ensures ParseUnsigned(NatToString(n)) == Some(n)
    ensures ParseUnsigned("+" + NatToString(n)) == Some(n)
  {
  }

  /** `parse::<i16>` on a printed number and on its negation: exactly the
      numbers from -32768 to 32767 come back. */
  lemma ParseI16OfNatToString(n: nat)
    ensures ParseI16(NatToString(n)) == if n < 0x8000 then Some(n) else None
    ensures ParseI16("-" + NatToString(n)) == if n <= 0x8000 then Some(0 - n) else None
  {
  }

  /** The length of the run of digits `s` starts with. */
  function LeadingDigits(s: string): (n: nat)
    ensures n <= |s|
  {
    if |s| > 0 && IsDigit(s[0]) then 1 + LeadingDigits(s[1..]) else 0
  }

  /** Digits followed by a non-digit start with a run as long as the digits. */
  lemma {:induction false} LeadingDigitsOfConcat(a: string, b: string)
    requires AllDigits(a) && |b| > 0 && !IsDigit(b[0])
    ensures LeadingDigits(a + b) == |a|
    decreases |a|
  {
    if |a| > 0 {
      assert (a + b)[1..] == a[1..] + b;
      LeadingDigitsOfConcat(a[1..], b);
    } else {
      assert a + b == b;
    }
  }

  /** Digits followed by a non-digit split in one way only. */
  lemma SplitAfterDigits(a1: string, b1: string, a2: string, b2: string)
    requires AllDigits(a1) && AllDigits(a2)
    requires |b1| > 0 && !IsDigit(b1[0]) && |b2| > 0 && !IsDigit(b2[0])
    requires a1 + b1 == a2 + b2
    ensures a1 == a2 && b1 == b2
  {
    var s := a1 + b1;
    LeadingDigitsOfConcat(a1, b1);
    LeadingDigitsOfConcat(a2, b2);
    assert a1 == s[..|a1|] && a2 == s[..|a2|];
    assert b1 == s[|a1|..] && b2 == s[|a2|..];
  }

  /** Rust's `char::is_whitespace`: the Unicode White_Space property. */
  predicate IsWhitespace(c: char) {
    || ('\t' <= c <= '\r') || c == ' ' || c == '\U{0085}' || c == '\U{00A0}'
    || c == '\U{1680}' || ('\U{2000}' <= c <= '\U{200A}') || c == '\U{2028}'
    || c == '\U{2029}' || c == '\U{202F}' || c == '\U{205F}' || c == '\U{3000}'
  }

  /** `str::trim`: whitespace is dropped from both ends. */
  function Trim(s: string): (r: string)
    ensures |r| <= |s|
  {
    if |s| > 0 && IsWhitespace(s[0]) then Trim(s[1..])
    else if |s| > 0 && IsWhitespace(s[|s| - 1]) then Trim(s[..|s| - 1])
    else s
  }

  /** A trimmed string neither starts nor ends with whitespace. */
  lemma {:induction false} TrimEnds(s: string)
    ensures var r := Trim(s); |r| > 0 ==> !IsWhitespace(r[0]) && !IsWhitespace(r[|r| - 1])
    decreases |s|
  {
    if |s| > 0 && IsWhitespace(s[0]) {
      TrimEnds(s[1..]);
    } else if |s| > 0 && IsWhitespace(s[|s| - 1]) {
      TrimEnds(s[..|s| - 1]);
    }
  }

  /** `s[i..j]` with whitespace everywhere else in `s`. */
  ghost predicate SliceBetweenWhitespace(s: string, i: nat, j: nat)
  {
    && i <= j <= |s|
    && (forall k :: 0 <= k < i ==> IsWhitespace(s[k]))
    && (forall k :: j <= k < |s| ==> IsWhitespace(s[k]))
  }

  /** A slice between whitespace of `s[1..]` is one of `s` when `s[0]` is whitespace. */
  lemma ShiftSlice(s: string, i: nat, j: nat)
    requires |s| > 0 && IsWhitespace(s[0]) && SliceBetweenWhitespace(s[1..], i, j)
    ensures SliceBetweenWhitespace(s, i + 1, j + 1) && s[1..][i..j] == s[i + 1..j + 1]
  {
    assert forall k :: 1 <= k < |s| ==> s[k] == s[1..][k - 1];
  }

  /** A slice between whitespace of `s` without its last character is one
      of `s` when that character is whitespace. */
  lemma ExtendSlice(s: string, i: nat, j: nat)
    requires |s| > 0 && IsWhitespace(s[|s| - 1]) && SliceBetweenWhitespace(s[..|s| - 1], i, j)
    ensures SliceBetweenWhitespace(s, i, j) && s[..|s| - 1][i..j] == s[i..j]
  {
    assert forall k :: 0 <= k < |s| - 1 ==> s[k] == s[..|s| - 1][k];
  }

  /** What `Trim` drops is whitespace at the two ends of `s`, and nothing else. */
  lemma {:induction false} TrimIsSlice(s: string) returns (i: nat)
    ensures SliceBetweenWhitespace(s, i, i + |Trim(s)|) && Trim(s) == s[i..i + |Trim(s)|]
    decreases |s|
  {
    if |s| > 0 && IsWhitespace(s[0]) {
      var j := TrimIsSlice(s[1..]);
      ShiftSlice(s, j, j + |Trim(s)|);
      i := j + 1;
    } else if |s| > 0 && IsWhitespace(s[|s| - 1]) {
      i := TrimIsSlice(s[..|s| - 1]);
      ExtendSlice(s, i, i + |Trim(s)|);
    } else {
      i := 0;
    }
  }

  /** Only a string of whitespace trims to the empty string. */
  lemma TrimEmptyIff(s: string)
    ensures Trim(s) == [] <==> forall k :: 0 <= k < |s| ==> IsWhitespace(s[k])
  {
    var i := TrimIsSlice(s);
  }

  /** Trimming twice is trimming once. */
  lemma TrimIdempotent(s: string)
    ensures Trim(Trim(s)) == Trim(s)
  {
    TrimEnds(s);
  }

  /** Python's `a < b` on `str`: lexicographic by code point, a proper
      prefix being smaller. */
  predicate StrLess(a: string, b: string) {
    if |a| == 0 then |b| > 0
    else if |b| == 0 then false
    else if a[0] != b[0] then a[0] < b[0]
    else StrLess(a[1..], b[1..])
  }

  /** Python's `<` on `str` is a strict order: no string is below itself,
      and the order is transitive. */
  lemma {:induction false} StrLessIsStrictOrder(a: string, b: string, c: string)
    ensures !StrLess(a, a)
    ensures StrLess(a, b) && StrLess(b, c) ==> StrLess(a, c)
    decreases |a|
  {
    if |a| > 0 {
      if |b| > 0 && |c| > 0 {
        StrLessIsStrictOrder(a[1..], b[1..], c[1..]);
      } else {
        StrLessIsStrictOrder(a[1..], a[1..], a[1..]);
      }
    }
  }
}
