/**
 * Decimal text and unsigned 64-bit integers, as Go's strconv package treats
 * them for base 10 and bit size 64. The keeper parses a post id with
 * `strconv.ParseUint(s, 10, 64)` and drops the error, so what matters here is
 * the value ParseUint returns in every case, errors included.
 */
module Decimal {
  const MaxUint64: nat := 0xFFFF_FFFF_FFFF_FFFF

  /** The smallest n for which n * 10 no longer fits in 64 bits. */
  const Cutoff: nat := MaxUint64 / 10 + 1

  type Uint64 = n: nat | n <= MaxUint64

  predicate IsDigit(c: char) {
    '0' <= c <= '9'
  }

  predicate AllDigits(s: string) {
    forall i | 0 <= i < |s| :: IsDigit(s[i])
  }

  function DigitValue(c: char): nat
    requires IsDigit(c)
  {
    c as int - '0' as int
  }

  function Digit(d: nat): (c: char)
    requires d < 10
    ensures IsDigit(c) && DigitValue(c) == d
  {
    ('0' as int + d) as char
  }

  /** Positional base-10 value of a digit string, most significant digit first. */
  function Value(s: string): nat
    requires AllDigits(s)
  {
    if s == [] then 0 else 10 * Value(s[..|s| - 1]) + DigitValue(s[|s| - 1])
  }

  /** Length of the longest prefix of `s` made of decimal digits. */
  function DigitPrefix(s: string): (k: nat)
    ensures k <= |s| && AllDigits(s[..k])
    ensures k < |s| ==> !IsDigit(s[k])
  {
    if s == [] || !IsDigit(s[0]) then 0
    else
      var k := 1 + DigitPrefix(s[1..]);
      assert forall i | 1 <= i < k :: s[..k][i] == s[1..][..k - 1][i - 1];
      k
  }

  /**
   * `strconv.ParseUint(s, 10, 64)` with its error discarded: an empty string
   * is a syntax error, and a syntax error yields 0.
   */
  function ParseUint(s: string): Uint64 {
    if s == "" then 0 else Scan(s, 0, 0)
  }

  /**
   * The digit loop of ParseUint, from byte `i` on, with `n` accumulated so far.
   * The first byte that is not a digit is a syntax error (0); the first digit
   * that carries the value past MaxUint64 is a range error (MaxUint64), even
   * when a syntax error would follow it.
   */
  function Scan(s: string, i: nat, n: Uint64): Uint64
    requires i <= |s|
    decreases |s| - i
  {
    if i == |s| then n
    else if !IsDigit(s[i]) then 0
    else if n >= Cutoff then MaxUint64
    else if n * 10 + DigitValue(s[i]) > MaxUint64 then MaxUint64
    else Scan(s, i + 1, n * 10 + DigitValue(s[i]))
  }

  /**
   * What ParseUint yields, stated without the loop: the value of the leading
   * digits, saturated at MaxUint64 when it overflows, and 0 when a non-digit
   * follows digits that fit.
   */
  function ParseUintReference(s: string): Uint64 {
    var k := DigitPrefix(s);
    var v := Value(s[..k]);
    if v > MaxUint64 then MaxUint64
    else if k < |s| then 0
    else v
  }

  /** `strconv.FormatUint(n, 10)`: the decimal text of n, without leading zeros. */
  function FormatUint(n: nat): (s: string)
    ensures s != [] && AllDigits(s)
    ensures Value(s) == n
    ensures s[0] == '0' ==> n == 0
  {
    if n < 10 then [Digit(n)]
    else
      var s := FormatUint(n / 10) + [Digit(n % 10)];
      assert s[..|s| - 1] == FormatUint(n / 10);
      s
  }

  /** A longer digit prefix never has a smaller value. */
  lemma {:induction false} ValueMonotone(s: string, j: nat, k: nat)
    requires j <= k <= |s| && AllDigits(s[..k])
    ensures AllDigits(s[..j]) && Value(s[..j]) <= Value(s[..k])
    decreases k - j
  {
    assert forall i | 0 <= i < j :: s[..j][i] == s[..k][i];
    if j < k {
      assert s[..k][..k - 1] == s[..k - 1];
      ValueMonotone(s, j, k - 1);
    }
  }

  lemma {:induction false} ScanMatchesReference(s: string, i: nat, n: Uint64)
    requires i <= DigitPrefix(s)
    requires AllDigits(s[..i]) && n == Value(s[..i])
    ensures Scan(s, i, n) == ParseUintReference(s)
    decreases |s| - i
  {
    var k := DigitPrefix(s);
    if i < k {
      var d := DigitValue(s[i]);
      assert s[..i + 1][..i] == s[..i];
      assert Value(s[..i + 1]) == 10 * n + d;
      ValueMonotone(s, i + 1, k);
      if n < Cutoff && n * 10 + d <= MaxUint64 {
        ScanMatchesReference(s, i + 1, n * 10 + d);
      }
    }
  }

  /** ParseUint agrees with its loop-free reference on every input. */
  lemma ParseUintMatchesReference(s: string)
    ensures ParseUint(s) == ParseUintReference(s)
  {
    assert s[..0] == [];
    if s != "" {
      ScanMatchesReference(s, 0, 0);
    }
  }

  /** Parsing the decimal text of a 64-bit id gives back that id. */
  lemma FormatParseRoundTrip(n: Uint64)
    ensures ParseUint(FormatUint(n)) == n
  {
    var s := FormatUint(n);
    ParseUintMatchesReference(s);
    assert s[..|s|] == s;
  }

  /** Text that is not a number before any overflow selects id 0. */
  lemma ParseUintSyntaxError(s: string, j: nat)
    requires j < |s| && !IsDigit(s[j]) && AllDigits(s[..j]) && Value(s[..j]) <= MaxUint64
    ensures ParseUint(s) == 0
  {
    ParseUintMatchesReference(s);
  }

  /** A digit string whose value does not fit in 64 bits saturates at MaxUint64. */
  lemma ParseUintOverflow(s: string)
    requires AllDigits(s) && Value(s) > MaxUint64
    ensures ParseUint(s) == MaxUint64
  {
    ParseUintMatchesReference(s);
    assert s[..|s|] == s;
  }
}
