/** Decimal text as strconv prints and parses it: Itoa / FormatInt on one side, Atoi / ParseInt on the other. */
module Decimal {
  import opened Integers
  import opened Sequences

  predicate IsDigit(c: char) {
    '0' <= c <= '9'
  }

  function DigitChar(d: nat): (c: char)
    requires d < 10
    ensures IsDigit(c)
  {
    ('0' as int + d) as char
  }

  function DigitValue(c: char): (d: nat)
    requires IsDigit(c)
    ensures d < 10
  {
    c as int - '0' as int
  }

  function FormatNat(n: nat): (s: string)
    ensures s != [] && forall i :: 0 <= i < |s| ==> IsDigit(s[i])
  {
    if n < 10 then [DigitChar(n)] else FormatNat(n / 10) + [DigitChar(n % 10)]
  }

  function Format(n: int): string {
    if n < 0 then "-" + FormatNat(-n) else FormatNat(n)
  }

  predicate AllDigits(s: string) {
    forall i :: 0 <= i < |s| ==> IsDigit(s[i])
  }

  function NatValue(s: string): nat
    requires AllDigits(s)
  {
    if s == [] then 0 else 10 * NatValue(s[..|s| - 1]) + DigitValue(s[|s| - 1])
  }

  /** An optional sign, then at least one digit, inside int64; leading zeros are accepted. */
  function Parse(s: string): Option<int> {
    var signed := s != [] && (s[0] == '-' || s[0] == '+');
    var digits := if signed then s[1..] else s;
    if digits == [] || !AllDigits(digits) then None
    else
      var value: int := NatValue(digits);
      var n := if signed && s[0] == '-' then -value else value;
      if MIN_INT64 <= n <= MAX_INT64 then Some(n) else None
  }

  lemma {:induction false} NatValueOfFormat(n: nat)
    ensures NatValue(FormatNat(n)) == n
  {
    if 10 <= n {
      var s := FormatNat(n);
      assert s[..|s| - 1] == FormatNat(n / 10);
      NatValueOfFormat(n / 10);
    }
  }

  /** Parsing undoes printing on the whole int64 range. */
  lemma ParseOfFormat(n: int)
    requires MIN_INT64 <= n <= MAX_INT64
    ensures Parse(Format(n)) == Some(n)
  {
    var digits := FormatNat(if n < 0 then -n else n);
    NatValueOfFormat(if n < 0 then -n else n);
    assert IsDigit(digits[0]);
    if n < 0 {
      assert Format(n)[1..] == digits;
    }
  }

  // ----- What the text means -----

  const DIGITS := "0123456789"

  function Zeros(k: nat): (s: string)
    ensures |s| == k
  {
    seq(k, _ => '0')
  }

  /** Decimal notation, most significant digit first: a digit on the right multiplies by ten and adds. */
  lemma DecimalNotation(n: int, d: int)
    requires n >= 0 && 0 <= d < 10
    ensures Format(d) == [DIGITS[d]]
    ensures n > 0 ==> Format(10 * n + d) == Format(n) + [DIGITS[d]]
    ensures n > 0 ==> Format(-n) == "-" + Format(n)
  {
    if n > 0 {
      assert (10 * n + d) / 10 == n && (10 * n + d) % 10 == d;
    }
  }

  /** A non-empty string of digits is a number's own notation behind some zeros. */
  lemma {:induction false} DigitsAreZerosAndNotation(s: string) returns (k: nat)
    requires s != [] && AllDigits(s)
    ensures s == Zeros(k) + FormatNat(NatValue(s))
  {
    var last := |s| - 1;
    var front := s[..last];
    assert s == front + [s[last]];
    var d := DigitValue(s[last]);
    if front == [] {
      assert NatValue(front) == 0;
      k := 0;
    } else {
      k := DigitsAreZerosAndNotation(front);
      var n := NatValue(front);
      if n == 0 {
        assert FormatNat(0) == "0" && Zeros(k) + "0" == Zeros(k + 1);
        k := k + 1;
      } else {
        assert (10 * n + d) / 10 == n && (10 * n + d) % 10 == d;
        assert Zeros(k) + (FormatNat(n) + [s[last]]) == front + [s[last]];
      }
    }
  }

  lemma {:induction false} LeadingZeros(k: nat, s: string)
    requires AllDigits(s)
    ensures AllDigits(Zeros(k) + s) && NatValue(Zeros(k) + s) == NatValue(s)
  {
    if s == [] {
      assert Zeros(k) + s == Zeros(k);
      if k > 0 {
        assert Zeros(k)[..k - 1] == Zeros(k - 1) == Zeros(k - 1) + s;
        LeadingZeros(k - 1, s);
      }
    } else {
      var last := |s| - 1;
      assert (Zeros(k) + s)[..|Zeros(k) + s| - 1] == Zeros(k) + s[..last];
      LeadingZeros(k, s[..last]);
    }
  }

  /** ParseInt accepts exactly the int64 numbers in decimal notation, with leading zeros and a sign allowed. */
  ghost predicate Denotes(s: string, n: int) {
    exists k: nat :: DenotesBehind(s, n, k)
  }

  /** The notation of `n` behind `k` zeros and perhaps a sign. */
  ghost predicate DenotesBehind(s: string, n: int, k: nat) {
    || (n >= 0 && (s == Zeros(k) + Format(n) || s == "+" + Zeros(k) + Format(n)))
    || (n <= 0 && s == "-" + Zeros(k) + Format(-n))
  }

  lemma ParseAcceptsExactly(s: string, n: int)
    ensures Parse(s) == Some(n) <==> MIN_INT64 <= n <= MAX_INT64 && Denotes(s, n)
  {
    if Parse(s) == Some(n) {
      ParsedDenotes(s, n);
    }
    if MIN_INT64 <= n <= MAX_INT64 && Denotes(s, n) {
      DenotedParses(s, n);
    }
  }

  lemma ParsedDenotes(s: string, n: int)
    requires Parse(s) == Some(n)
    ensures Denotes(s, n)
  {
    hide Zeros, FormatNat, NatValue;
    var signed := s[0] == '-' || s[0] == '+';
    var digits := if signed then s[1..] else s;
    var k := DigitsAreZerosAndNotation(digits);
    if signed {
      assert s == [s[0]] + digits;
      assert s == [s[0]] + Zeros(k) + FormatNat(NatValue(digits));
    }
    assert DenotesBehind(s, n, k);
  }

  lemma UnsignedParses(k: nat, m: nat)
    requires m <= MAX_INT64
    ensures Parse(Zeros(k) + FormatNat(m)) == Some(m)
  {
    var digits := Zeros(k) + FormatNat(m);
    LeadingZeros(k, FormatNat(m));
    NatValueOfFormat(m);
    assert digits != [] && IsDigit(digits[0]);
  }

  lemma SignedParses(sign: char, k: nat, m: nat)
    requires sign == '+' || sign == '-'
    requires MIN_INT64 <= (if sign == '-' then 0 - m else m) <= MAX_INT64
    ensures Parse([sign] + (Zeros(k) + FormatNat(m))) == Some(if sign == '-' then 0 - m else m)
  {
    hide FormatNat, Zeros;
    var digits := Zeros(k) + FormatNat(m);
    LeadingZeros(k, FormatNat(m));
    NatValueOfFormat(m);
    assert ([sign] + digits)[1..] == digits;
  }

  lemma DenotedParses(s: string, n: int)
    requires MIN_INT64 <= n <= MAX_INT64 && Denotes(s, n)
    ensures Parse(s) == Some(n)
  {
    hide Parse, FormatNat, Zeros;
    var k: nat :| DenotesBehind(s, n, k);
    var m := if n >= 0 then n else -n;
    if s == Zeros(k) + FormatNat(m) && n >= 0 {
      UnsignedParses(k, m);
    } else if n >= 0 && s == "+" + Zeros(k) + FormatNat(m) {
      assert s == ['+'] + (Zeros(k) + FormatNat(m));
      SignedParses('+', k, m);
    } else {
      assert s == ['-'] + (Zeros(k) + FormatNat(m));
      SignedParses('-', k, m);
    }
  }
}
