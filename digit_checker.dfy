/** The weighted-sum check-digit engine that the CNPJ validator configures.
    A checker is a table from check-digit position (1-based) to the
    multipliers of the digits before that position, a modulus, and a
    residue rule that maps the remainder of the weighted sum to the expected
    digit. The residue rule is a parameter: each document type supplies its
    own. */
module DigitChecker {

  datatype Checker = Checker(multipliers: map<nat, seq<int>>, modulus: int, residueRule: int -> int)

  predicate NonNegative(ms: seq<int>) {
    forall i :: 0 <= i < |ms| ==> 0 <= ms[i]
  }

  predicate IsDigitSeq(ds: seq<int>) {
    forall i :: 0 <= i < |ds| ==> 0 <= ds[i] <= 9
  }

  /** A table fit for numbers of `length` digits: every registered position
      lies inside the number and has one non-negative multiplier per
      preceding digit, and the modulus is positive. */
  predicate WellFormed(c: Checker, length: nat) {
    && 0 < c.modulus
    && forall p :: p in c.multipliers ==>
         1 <= p <= length && |c.multipliers[p]| == p - 1 && NonNegative(c.multipliers[p])
  }

  /** The inner product of the digits with the multipliers, left to right. */
  function WeightedSum(ds: seq<int>, ms: seq<int>): int
    requires |ds| == |ms|
  {
    WeightedSumFrom(ds, ms, 0)
  }

  /** The part of the inner product from position `i` on. */
  function WeightedSumFrom(ds: seq<int>, ms: seq<int>, i: nat): int
    requires |ds| == |ms| && i <= |ms|
    decreases |ms| - i
  {
    if i == |ms| then 0 else ds[i] * ms[i] + WeightedSumFrom(ds, ms, i + 1)
  }

  /** The digit expected at check position `p`: the residue rule applied to
      the weighted sum of the `p - 1` preceding digits modulo the modulus. */
  function ExpectedDigit(c: Checker, ds: seq<int>, p: nat): int
    requires WellFormed(c, |ds|) && IsDigitSeq(ds) && p in c.multipliers
  {
    c.residueRule(WeightedSum(ds[..p - 1], c.multipliers[p]) % c.modulus)
  }

  /** Every registered position holds the digit expected there. The order in
      which the positions are visited does not matter: each is compared with
      the input's own digit, so one mismatch anywhere fails the whole check. */
  predicate HasValidCheckDigits(c: Checker, ds: seq<int>)
    requires WellFormed(c, |ds|) && IsDigitSeq(ds)
  {
    forall p :: p in c.multipliers ==> ExpectedDigit(c, ds, p) == ds[p - 1]
  }

  /** Digits and non-negative multipliers give a non-negative sum, so the
      remainder taken by `ExpectedDigit` is the one Java's `%` computes. */
  lemma {:induction false} WeightedSumNonNegative(ds: seq<int>, ms: seq<int>, i: nat)
    requires |ds| == |ms| && i <= |ms| && IsDigitSeq(ds) && NonNegative(ms)
    ensures 0 <= WeightedSumFrom(ds, ms, i)
    decreases |ms| - i
  {
    if i < |ms| {
      WeightedSumNonNegative(ds, ms, i + 1);
    }
  }
}
