/** Small vocabulary shared by the models: optional values, bounded numbers, and decimal and hexadecimal text. */
module Common {

  datatype Option<+T> = None | Some(value: T)

  /** No number in a public record is larger than this. */
  const LIMIT: int := 1_000_000_000_000_000

  predicate Whole(n: int) {
    0 <= n <= LIMIT
  }

  predicate Number(x: real) {
    0.0 <= x <= LIMIT as real
  }

  predicate Hex(s: string, n: nat) {
    |s| == n && forall i :: 0 <= i < |s| ==> '0' <= s[i] <= '9' || 'a' <= s[i] <= 'f'
  }

  predicate Digits(s: string) {
    forall i :: 0 <= i < |s| ==> '0' <= s[i] <= '9'
  }

  function DecimalValue(s: string): nat
    requires Digits(s)
  {
    if s == "" then 0 else 10 * DecimalValue(s[..|s| - 1]) + (s[|s| - 1] as int - '0' as int)
  }

  /** A decimal environment variable of at most the given length; anything else reads as zero. */
  function Numeric(text: string, longest: nat): nat {
    if 1 <= |text| <= longest && Digits(text) then DecimalValue(text) else 0
  }

  function Power10(n: nat): nat {
    if n == 0 then 1 else 10 * Power10(n - 1)
  }

  lemma {:induction false} DecimalBound(s: string)
    requires Digits(s)
    ensures DecimalValue(s) < Power10(|s|)
    decreases |s|
  {
    if s != "" { DecimalBound(s[..|s| - 1]); }
  }

  lemma {:induction false} Power10Grows(m: nat, n: nat)
    requires m <= n
    ensures Power10(m) <= Power10(n)
    decreases n - m
  {
    if m < n { Power10Grows(m, n - 1); }
  }

  lemma Power10Of15()
    ensures Power10(15) == LIMIT
  {
    assert Power10(4) == 10_000;
    assert Power10(8) == 100_000_000;
    assert Power10(12) == 1_000_000_000_000;
  }

  /** Fifteen digits cannot exceed the limit. */
  lemma NumericBound(text: string)
    ensures Whole(Numeric(text, 15))
  {
    if 1 <= |text| <= 15 && Digits(text) {
      DecimalBound(text);
      Power10Grows(|text|, 15);
      Power10Of15();
    }
  }
}
