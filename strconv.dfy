/**
 * Go's `strconv.Atoi` on a 64-bit platform, the only number parser the
 * rebuild uses.  `Atoi` follows Go's own procedure (strip one sign, scan the
 * digits into an unsigned 64-bit accumulator that fails on overflow, then
 * check the signed bound); `IsDecimal`, `DecimalValue` and `InInt64` are an
 * independent reference definition of what it accepts, and `AtoiSpec`
 * proves the two agree on every string.
 */
module Strconv {
  import opened Wrappers

  const Int64Min: int := -0x8000_0000_0000_0000
  const Int64Max: int := 0x7FFF_FFFF_FFFF_FFFF
  const Uint64Max: int := 0xFFFF_FFFF_FFFF_FFFF

  predicate InInt64(n: int) { Int64Min <= n <= Int64Max }

  predicate IsDigit(c: char) { '0' <= c <= '9' }

  predicate AllDigits(s: string) { forall i :: 0 <= i < |s| ==> IsDigit(s[i]) }

  function DigitValue(c: char): (d: nat)
    requires IsDigit(c)
    ensures d < 10
  {
    c as int - '0' as int
  }

  /** The number a run of ASCII digits denotes in base 10 (leading zeros allowed). */
  function DigitsValue(s: string): (v: nat)
    requires AllDigits(s)
    decreases |s|
  {
    if s == [] then 0 else DigitsValue(s[..|s| - 1]) * 10 + DigitValue(s[|s| - 1])
  }

  predicate HasSign(s: string) { |s| > 0 && (s[0] == '+' || s[0] == '-') }

  /** The text after an optional leading sign. */
  function Unsigned(s: string): (digits: string)
  {
    if HasSign(s) then s[1..] else s
  }

  /** Reference syntax: an optional `+` or `-`, then one or more ASCII digits, nothing else. */
  predicate IsDecimal(s: string)
  {
    |Unsigned(s)| > 0 && AllDigits(Unsigned(s))
  }

  /** Reference meaning of a decimal text, before any range check. */
  function DecimalValue(s: string): (v: int)
    requires IsDecimal(s)
  {
    var m: int := DigitsValue(Unsigned(s));
    if s[0] == '-' then -m else m
  }

  /**
   * Go's digit loop for base 10 and 64 bits: a non-digit fails, and so does an
   * accumulator that would pass the largest unsigned 64-bit value.
   */
  function Accumulate(s: string, i: nat, n: nat): (r: Option<nat>)
    requires i <= |s|
    decreases |s| - i
  {
    if i == |s| then Some(n)
    else if !IsDigit(s[i]) then None
    else if n * 10 + DigitValue(s[i]) > Uint64Max then None
    else Accumulate(s, i + 1, n * 10 + DigitValue(s[i]))
  }

  /** `strconv.ParseUint(s, 10, 64)`: the empty text fails; no underscores or prefixes in base 10. */
  function ParseUint(s: string): (r: Option<nat>)
  {
    if s == [] then None else Accumulate(s, 0, 0)
  }

  /** `strconv.Atoi(s)`: `None` stands for the non-nil error Go returns. */
  function Atoi(s: string): (r: Option<int>)
  {
    if s == [] then None
    else
      var neg := s[0] == '-';
      var digits := if s[0] == '+' || s[0] == '-' then s[1..] else s;
      match ParseUint(digits)
      case None => None
      case Some(u) =>
        if !neg && u > Int64Max then None
        else if neg && u > -Int64Min then None
        else Some(if neg then -(u as int) else u)
  }

  /** Dropping digits from the end never makes a digit string larger. */
  lemma {:induction false} PrefixValueBounded(s: string, k: nat)
    requires AllDigits(s) && k <= |s|
    ensures AllDigits(s[..k]) && DigitsValue(s[..k]) <= DigitsValue(s)
  {
    if k < |s| {
      var t := s[..|s| - 1];
      assert t[..k] == s[..k];
      PrefixValueBounded(t, k);
    } else {
      assert s[..k] == s;
    }
  }

  /** The digit loop, started on a checked prefix, computes the reference value or fails exactly as the reference says. */
  lemma {:induction false} AccumulateSpec(s: string, i: nat, n: nat)
    requires i <= |s| && AllDigits(s[..i]) && n == DigitsValue(s[..i]) && n <= Uint64Max
    ensures Accumulate(s, i, n) ==
      if AllDigits(s) && DigitsValue(s) <= Uint64Max then Some(DigitsValue(s)) else None
    decreases |s| - i
  {
    if i == |s| {
      assert s[..i] == s;
    } else if !IsDigit(s[i]) {
      assert !AllDigits(s);
    } else {
      var p := s[..i + 1];
      assert p[..i] == s[..i];
      assert AllDigits(p);
      assert DigitsValue(p) == n * 10 + DigitValue(s[i]);
      if n * 10 + DigitValue(s[i]) > Uint64Max {
        if AllDigits(s) {
          PrefixValueBounded(s, i + 1);
        }
      } else {
        AccumulateSpec(s, i + 1, n * 10 + DigitValue(s[i]));
      }
    }
  }

  /** `ParseUint` accepts exactly the non-empty digit strings whose value fits in 64 unsigned bits. */
  lemma ParseUintSpec(s: string)
    ensures ParseUint(s) ==
      if |s| > 0 && AllDigits(s) && DigitsValue(s) <= Uint64Max then Some(DigitsValue(s)) else None
  {
    if s != [] {
      assert s[..0] == [];
      AccumulateSpec(s, 0, 0);
    }
  }

  /**
   * `Atoi` succeeds exactly on an optional sign followed by one or more ASCII
   * digits (no spaces, no underscores) whose value lies in Go's 64-bit `int`
   * range, and then returns that value; negative results included.
   */
  lemma AtoiSpec(s: string)
    ensures Atoi(s).Some? <==> IsDecimal(s) && InInt64(DecimalValue(s))
    ensures Atoi(s).Some? ==> Atoi(s).value == DecimalValue(s)
  {
    if s != [] {
      ParseUintSpec(Unsigned(s));
    }
  }

  /** Negative values parse; signs and leading zeros are accepted. */
  lemma AtoiAcceptsExamples()
    ensures Atoi("-5") == Some(-5)
    ensures Atoi("+12") == Some(12)
    ensures Atoi("007") == Some(7)
  {
    AtoiSpec("-5");
    AtoiSpec("+12");
    AtoiSpec("007");
  }

  /** A lone sign, the empty text, and surrounding spaces are rejected. */
  lemma AtoiRejectsExamples()
    ensures Atoi("-") == None
    ensures Atoi("") == None
    ensures Atoi(" 5") == None
    ensures Atoi("5 ") == None
  {
  }
}
