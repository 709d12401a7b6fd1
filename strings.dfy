/**
 * The part of Go's `strings` and `strconv` packages the chat server uses:
 * HasPrefix, TrimPrefix, TrimSpace, Itoa and Atoi.
 * A Go string is modelled as the sequence of its code points.
 */
module Strings {
  import opened Options

  // ---------------------------------------------------------------- whitespace

  /** unicode.IsSpace: the characters with Unicode's White_Space property. */
  predicate IsSpace(c: char)
  {
    c in SpaceChars
  }

  const SpaceChars: set<char> := {
    ' ', '\U{9}', '\U{A}', '\U{B}', '\U{C}', '\U{D}', '\U{85}', '\U{A0}', '\U{1680}',
    '\U{2000}', '\U{2001}', '\U{2002}', '\U{2003}', '\U{2004}', '\U{2005}', '\U{2006}',
    '\U{2007}', '\U{2008}', '\U{2009}', '\U{200A}', '\U{2028}', '\U{2029}', '\U{202F}',
    '\U{205F}', '\U{3000}'
  }

  predicate AllSpace(s: string)
  {
    forall i :: 0 <= i < |s| ==> IsSpace(s[i])
  }

  /** Neither starts nor ends with whitespace. */
  predicate Trimmed(s: string)
  {
    s == [] || (!IsSpace(s[0]) && !IsSpace(s[|s| - 1]))
  }

  /** The first position at or after `i` that does not hold whitespace (|s| when there is none). */
  function SkipSpace(s: string, i: nat): (k: nat)
    requires i <= |s|
    ensures i <= k <= |s|
    ensures forall m :: i <= m < k ==> IsSpace(s[m])
    ensures k < |s| ==> !IsSpace(s[k])
    decreases |s| - i
  {
    if i < |s| && IsSpace(s[i]) then SkipSpace(s, i + 1) else i
  }

  /** The end of `s[lo..j]` once its trailing whitespace is dropped. */
  function SkipSpaceBack(s: string, lo: nat, j: nat): (k: nat)
    requires lo <= j <= |s|
    ensures lo <= k <= j
    ensures forall m :: k <= m < j ==> IsSpace(s[m])
    ensures k > lo ==> !IsSpace(s[k - 1])
    decreases j
  {
    if j > lo && IsSpace(s[j - 1]) then SkipSpaceBack(s, lo, j - 1) else j
  }

  /** strings.TrimSpace: the leading and the trailing whitespace cut away. */
  function TrimSpace(s: string): (r: string)
    ensures Trimmed(r) && |r| <= |s|
  {
    var i := SkipSpace(s, 0);
    s[i..SkipSpaceBack(s, i, |s|)]
  }

  /** SkipSpace stops at the first non-space, wherever the scan starts before it. */
  lemma {:induction false} SkipSpaceAt(s: string, i: nat, k: nat)
    requires i <= k <= |s|
    requires forall m :: i <= m < k ==> IsSpace(s[m])
    requires k < |s| ==> !IsSpace(s[k])
    ensures SkipSpace(s, i) == k
    decreases k - i
  {
    if i < k {
      SkipSpaceAt(s, i + 1, k);
    }
  }

  /** SkipSpaceBack stops after the last non-space, wherever the scan starts after it. */
  lemma {:induction false} SkipSpaceBackAt(s: string, lo: nat, j: nat, k: nat)
    requires lo <= k <= j <= |s|
    requires forall m :: k <= m < j ==> IsSpace(s[m])
    requires k > lo ==> !IsSpace(s[k - 1])
    ensures SkipSpaceBack(s, lo, j) == k
    decreases j - k
  {
    if k < j {
      SkipSpaceBackAt(s, lo, j - 1, k);
    }
  }

  /** TrimSpace recovers a trimmed value from any whitespace padding around it. */
  lemma TrimSpacePadded(pre: string, v: string, post: string)
    requires AllSpace(pre) && Trimmed(v) && AllSpace(post)
    ensures TrimSpace(pre + v + post) == v
  {
    var s := pre + v + post;
    var a, b := |pre|, |pre| + |v|;
    assert forall m :: 0 <= m < a ==> s[m] == pre[m];
    assert forall m :: b <= m < |s| ==> s[m] == post[m - b];
    if v == [] {
      SkipSpaceAt(s, 0, |s|);
      SkipSpaceBackAt(s, |s|, |s|, |s|);
    } else {
      assert s[a] == v[0] && s[b - 1] == v[|v| - 1];
      SkipSpaceAt(s, 0, a);
      SkipSpaceBackAt(s, a, |s|, b);
      assert s[a..b] == v;
    }
  }

  /** A string trims to nothing exactly when it is all whitespace. */
  lemma TrimSpaceEmpty(s: string)
    ensures TrimSpace(s) == [] <==> AllSpace(s)
  {
    var i := SkipSpace(s, 0);
    var j := SkipSpaceBack(s, i, |s|);
    if AllSpace(s) {
      SkipSpaceAt(s, 0, |s|);
    }
    if TrimSpace(s) == [] {
      assert i == j;
      forall m | 0 <= m < |s| ensures IsSpace(s[m]) {
      }
    }
  }

  /** Trimming twice trims no more than trimming once. */
  lemma TrimSpaceIdempotent(s: string)
    ensures TrimSpace(TrimSpace(s)) == TrimSpace(s)
  {
    var t := TrimSpace(s);
    assert [] + t + [] == t;
    TrimSpacePadded([], t, []);
  }

  // ---------------------------------------------------------------- prefixes

  /** strings.HasPrefix. */
  predicate HasPrefix(s: string, prefix: string)
  {
    prefix <= s
  }

  /** strings.TrimPrefix: drops the prefix when it is there and otherwise returns `s` itself. */
  function TrimPrefix(s: string, prefix: string): (r: string)
    ensures HasPrefix(s, prefix) ==> prefix + r == s
    ensures !HasPrefix(s, prefix) ==> r == s
  {
    if HasPrefix(s, prefix) then s[|prefix|..] else s
  }

  // ---------------------------------------------------------------- integers

  const MinInt64: int := -0x8000_0000_0000_0000
  const MaxInt64: int := 0x7FFF_FFFF_FFFF_FFFF

  predicate IsDigit(c: char)
  {
    '0' <= c <= '9'
  }

  predicate AllDigits(s: string)
  {
    forall i :: 0 <= i < |s| ==> IsDigit(s[i])
  }

  function DigitChar(d: nat): (c: char)
    requires d < 10
    ensures IsDigit(c)
  {
    ('0' as int + d) as char
  }

  /** The decimal numeral of n: most significant digit first, no leading zero. */
  function Decimal(n: nat): (s: string)
    ensures s != [] && AllDigits(s)
    ensures |s| > 1 ==> s[0] != '0'
  {
    if n < 10 then [DigitChar(n)] else Decimal(n / 10) + [DigitChar(n % 10)]
  }

  /** strconv.Itoa. */
  function Itoa(n: int): (s: string)
    ensures s != [] && Trimmed(s)
    ensures n >= 0 <==> AllDigits(s)
  {
    if n < 0 then "-" + Decimal(-n) else Decimal(n)
  }

  /** The value of a numeral. */
  function DigitsValue(s: string): nat
    requires AllDigits(s)
  {
    if s == [] then 0 else DigitsValue(s[..|s| - 1]) * 10 + (s[|s| - 1] as int - '0' as int)
  }

  /** A base-10 numeral as strconv.ParseInt accepts it: an optional sign, then one or more digits. */
  predicate Numeral(s: string)
  {
    (s != [] && AllDigits(s)) || (|s| > 1 && (s[0] == '+' || s[0] == '-') && AllDigits(s[1..]))
  }

  /** strconv.ParseInt(s, 10, ·) before the range check: the value of a numeral, None otherwise. */
  function ParseInt(s: string): (v: Option<int>)
    ensures v.Some? <==> Numeral(s)
  {
    var digits := if s != [] && (s[0] == '+' || s[0] == '-') then s[1..] else s;
    if digits == [] || !AllDigits(digits) then None
    else if s[0] == '-' then Some(-(DigitsValue(digits) as int))
    else Some(DigitsValue(digits))
  }

  /**
   * strconv.Atoi as the server calls it, with the error discarded: 0 for text that is not
   * a numeral, and the nearest 64-bit value for a numeral out of range.
   */
  function Atoi(s: string): (n: int)
    ensures MinInt64 <= n <= MaxInt64
    ensures !Numeral(s) ==> n == 0
    ensures Numeral(s) && MinInt64 <= ParseInt(s).value <= MaxInt64 ==> n == ParseInt(s).value
    ensures Numeral(s) && ParseInt(s).value > MaxInt64 ==> n == MaxInt64
    ensures Numeral(s) && ParseInt(s).value < MinInt64 ==> n == MinInt64
  {
    match ParseInt(s)
    case None => 0
    case Some(v) => if v < MinInt64 then MinInt64 else if v > MaxInt64 then MaxInt64 else v
  }

  lemma {:induction false} DecimalValue(n: nat)
    ensures DigitsValue(Decimal(n)) == n
  {
    if n >= 10 {
      var s := Decimal(n);
      assert s[..|s| - 1] == Decimal(n / 10);
      DecimalValue(n / 10);
    }
  }

  /**
   * The value of every numeral: leading zeros and a '+' change nothing, a '-' negates.
   * So "7", "007" and "+7" all parse to 7.
   */
  lemma ParseIntDigits(d: string)
    requires d != [] && AllDigits(d)
    ensures ParseInt(d) == Some(DigitsValue(d) as int)
    ensures ParseInt("+" + d) == Some(DigitsValue(d) as int)
    ensures ParseInt("-" + d) == Some(-(DigitsValue(d) as int))
  {
    assert ("+" + d)[1..] == d;
    assert ("-" + d)[1..] == d;
  }

  /** Leading zeros do not change a numeral's value. */
  lemma {:induction false} LeadingZeros(k: nat, d: string)
    requires AllDigits(d)
    ensures AllDigits(seq(k, _ => '0') + d)
    ensures DigitsValue(seq(k, _ => '0') + d) == DigitsValue(d)
    decreases |d|
  {
    var z := seq(k, _ => '0');
    if d == [] {
      assert z + d == z;
      AllZeros(k);
    } else {
      var last := |d| - 1;
      assert (z + d)[..|z + d| - 1] == z + d[..last];
      LeadingZeros(k, d[..last]);
    }
  }

  lemma {:induction false} AllZeros(k: nat)
    ensures AllDigits(seq(k, _ => '0')) && DigitsValue(seq(k, _ => '0')) == 0
  {
    if k > 0 {
      assert seq(k, _ => '0')[..k - 1] == seq(k - 1, _ => '0');
      AllZeros(k - 1);
    }
  }

  /** Atoi reads back every 64-bit integer Itoa prints. */
  lemma AtoiItoa(n: int)
    requires MinInt64 <= n <= MaxInt64
    ensures Atoi(Itoa(n)) == n
  {
    if n < 0 {
      DecimalValue(-n);
      assert Itoa(n)[1..] == Decimal(-n);
    } else {
      DecimalValue(n);
    }
  }

  /** Itoa is one-to-one: different ids never print alike. */
  lemma ItoaInjective(a: int, b: int)
    requires MinInt64 <= a <= MaxInt64 && MinInt64 <= b <= MaxInt64
    requires Itoa(a) == Itoa(b)
    ensures a == b
  {
    AtoiItoa(a);
    AtoiItoa(b);
  }
}
