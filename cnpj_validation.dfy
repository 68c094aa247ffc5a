/** The CNPJ (Brazilian company taxpayer number, 14 digits) validator: a
    shape check on the raw input, a rejection of numbers made of one digit
    repeated, and a check of the two trailing check digits, each stage run
    only while no error has been recorded. */
module CnpjValidation {
  import opened Characters
  import DigitChecker

  datatype Option<T> = None | Some(value: T)

  /** The tags of `CNPJError`, in the order the stages can record them. */
  datatype CnpjError = InvalidFormat | InvalidDigits | RepeatedDigits | InvalidCheckDigits

  const CnpjDigitsSize: nat := 14
  const Mod: int := 11
  /** The thirteenth digit is the first check digit. */
  const Dv1Position: nat := 13
  /** The fourteenth digit is the second check digit. */
  const Dv2Position: nat := 14
  const Dv1Multipliers: seq<int> := [5, 4, 3, 2, 9, 8, 7, 6, 5, 4, 3, 2]
  const Dv2Multipliers: seq<int> := [6, 5, 4, 3, 2, 9, 8, 7, 6, 5, 4, 3, 2]

  // ---------------------------------------------------------------------
  // The two accepted shapes
  // ---------------------------------------------------------------------

  /** The characters of `s` at positions `lo` up to `hi` (exclusive) are digits. */
  predicate DigitsBetween(s: string, lo: nat, hi: nat)
    requires lo <= hi <= |s|
  {
    forall i :: lo <= i < hi ==> IsAsciiDigit(s[i])
  }

  /** The whole string matches `\d{2}[.]\d{3}[.]\d{3}/\d{4}-\d{2}`. */
  predicate MatchesFormatted(s: string) {
    && |s| == 18
    && DigitsBetween(s, 0, 2) && s[2] == '.'
    && DigitsBetween(s, 3, 6) && s[6] == '.'
    && DigitsBetween(s, 7, 10) && s[10] == '/'
    && DigitsBetween(s, 11, 15) && s[15] == '-'
    && DigitsBetween(s, 16, 18)
  }

  /** The whole string matches `\d{14}`: exactly fourteen ASCII digits. */
  predicate MatchesUnformatted(s: string) {
    |s| == CnpjDigitsSize && AllDigits(s)
  }

  /** Removing the punctuation of a formatted CNPJ leaves its fourteen digits. */
  lemma FormattedStripsToDigits(s: string)
    requires MatchesFormatted(s)
    ensures StripNonDigits(s) == s[0..2] + s[3..6] + s[7..10] + s[11..15] + s[16..18]
    ensures MatchesUnformatted(StripNonDigits(s))
  {
    assert s[0..] == s;
    StripThroughSeparator(s, 0, 2);
    StripThroughSeparator(s, 3, 6);
    StripThroughSeparator(s, 7, 10);
    StripThroughSeparator(s, 11, 15);
    StripDigitsBetween(s, 16, 18);
    assert s[16..] == s[16..18];
  }

  /** A run of digits is kept unchanged by stripping. */
  lemma StripDigitsBetween(s: string, lo: nat, hi: nat)
    requires lo <= hi <= |s| && DigitsBetween(s, lo, hi)
    ensures StripNonDigits(s[lo..hi]) == s[lo..hi]
  {
    assert AllDigits(s[lo..hi]) by {
      forall i | 0 <= i < hi - lo ensures IsAsciiDigit(s[lo..hi][i]) {
        assert s[lo..hi][i] == s[lo + i];
      }
    }
    StripAllDigits(s[lo..hi]);
  }

  /** A run of digits followed by a separator: the digits are kept and the
      separator dropped. */
  lemma StripThroughSeparator(s: string, lo: nat, k: nat)
    requires lo <= k < |s| && DigitsBetween(s, lo, k) && !IsAsciiDigit(s[k])
    ensures StripNonDigits(s[lo..]) == s[lo..k] + StripNonDigits(s[k + 1..])
  {
    assert s[lo..] == s[lo..k] + [s[k]] + s[k + 1..];
    StripConcat(s[lo..k] + [s[k]], s[k + 1..]);
    StripConcat(s[lo..k], [s[k]]);
    StripDigitsBetween(s, lo, k);
    StripNonDigitChar(s[k]);
  }

  /** The two shapes exclude each other, so each mode rejects the other's input. */
  lemma ShapesAreDisjoint(s: string)
    ensures !(MatchesFormatted(s) && MatchesUnformatted(s))
  {
  }

  // ---------------------------------------------------------------------
  // Check digits
  // ---------------------------------------------------------------------

  /** `rotinaPosProdutoInterno`: residues 0 and 1 give check digit 0, every
      other residue `r` gives `11 - r`. */
  function ResidueToCheckDigit(resto: int): (d: int)
    ensures 0 <= resto < 11 ==> 0 <= d <= 9
    ensures 0 <= resto < 11 ==> (d == 0 <==> resto < 2)
    ensures 2 <= resto < 11 ==> (resto + d) % Mod == 0
  {
    if resto < 2 then 0 else 11 - resto
  }

  /** The check-digit engine as the validator configures it. */
  const CnpjChecker: DigitChecker.Checker :=
    DigitChecker.Checker(map[Dv1Position := Dv1Multipliers, Dv2Position := Dv2Multipliers],
                         Mod, ResidueToCheckDigit)

  /** Each table has one multiplier per digit before its position, so the
      configuration fits fourteen-digit numbers. */
  lemma CnpjCheckerWellFormed()
    ensures |Dv1Multipliers| == Dv1Position - 1 && |Dv2Multipliers| == Dv2Position - 1
    ensures DigitChecker.WellFormed(CnpjChecker, CnpjDigitsSize)
  {
  }

  /** The first check digit computed from the first twelve digits. */
  function FirstCheckDigit(base: seq<int>): (d: int)
    requires |base| == Dv1Position - 1 && DigitChecker.IsDigitSeq(base)
    ensures 0 <= d <= 9
  {
    ResidueToCheckDigit(DigitChecker.WeightedSum(base, Dv1Multipliers) % Mod)
  }

  /** The second check digit computed from the first thirteen digits. */
  function SecondCheckDigit(base: seq<int>): (d: int)
    requires |base| == Dv2Position - 1 && DigitChecker.IsDigitSeq(base)
    ensures 0 <= d <= 9
  {
    ResidueToCheckDigit(DigitChecker.WeightedSum(base, Dv2Multipliers) % Mod)
  }

  /** `digitChecker.hasValidCheckDigits(cnpj)` on fourteen ASCII digits. */
  predicate CheckDigitsValid(s: string)
    requires MatchesUnformatted(s)
  {
    CnpjCheckerWellFormed();
    DigitChecker.HasValidCheckDigits(CnpjChecker, DigitValues(s))
  }

  /** The engine's verdict is: the thirteenth digit is the first check digit
      of the twelve before it and the fourteenth is the second check digit of
      the thirteen before it. */
  lemma CheckDigitsValidIff(s: string)
    requires MatchesUnformatted(s)
    ensures var ds := DigitValues(s);
      CheckDigitsValid(s) <==>
        ds[12] == FirstCheckDigit(ds[..12]) && ds[13] == SecondCheckDigit(ds[..13])
  {
    CnpjCheckerWellFormed();
    var ds := DigitValues(s);
    assert DigitChecker.ExpectedDigit(CnpjChecker, ds, Dv1Position) == FirstCheckDigit(ds[..12]);
    assert DigitChecker.ExpectedDigit(CnpjChecker, ds, Dv2Position) == SecondCheckDigit(ds[..13]);
    assert Dv1Position in CnpjChecker.multipliers && Dv2Position in CnpjChecker.multipliers;
    assert forall p :: p in CnpjChecker.multipliers ==> p == Dv1Position || p == Dv2Position;
  }

  /** A twelve-digit base completed with its two check digits. */
  function WithCheckDigits(base: seq<int>): (ds: seq<int>)
    requires |base| == 12 && DigitChecker.IsDigitSeq(base)
    ensures |ds| == CnpjDigitsSize && DigitChecker.IsDigitSeq(ds) && ds[..12] == base
  {
    var first := base + [FirstCheckDigit(base)];
    first + [SecondCheckDigit(first)]
  }

  /** A number passes the check exactly when it is its own first twelve
      digits completed with their check digits. */
  lemma CheckDigitsValidIffCompleted(s: string)
    requires MatchesUnformatted(s)
    ensures var ds := DigitValues(s);
      CheckDigitsValid(s) <==> ds == WithCheckDigits(ds[..12])
  {
    var ds := DigitValues(s);
    CheckDigitsValidIff(s);
    var w := WithCheckDigits(ds[..12]);
    assert ds[..13] == ds[..12] + [ds[12]];
    assert ds == ds[..13] + [ds[13]];
    if ds == w {
      assert ds[12] == w[12] == FirstCheckDigit(ds[..12]);
      assert ds[..13] == w[..13] == ds[..12] + [FirstCheckDigit(ds[..12])];
    }
  }

  /** Equal digit values mean equal strings. */
  lemma DigitValuesInjective(s: string, t: string)
    requires AllDigits(s) && AllDigits(t) && DigitValues(s) == DigitValues(t)
    ensures s == t
  {
    assert |s| == |DigitValues(s)| == |t|;
    forall i | 0 <= i < |s| ensures s[i] == t[i] {
      assert DigitValue(s[i]) == DigitValues(s)[i] == DigitValues(t)[i] == DigitValue(t[i]);
    }
  }

  /** Given the first twelve digits, only one pair of check digits passes:
      altering either or both trailing digits of a valid number makes it fail. */
  lemma CheckDigitChangeDetected(s: string, t: string)
    requires MatchesUnformatted(s) && MatchesUnformatted(t)
    requires s[..12] == t[..12] && s != t
    requires CheckDigitsValid(s)
    ensures !CheckDigitsValid(t)
  {
    var ds, dt := DigitValues(s), DigitValues(t);
    assert ds[..12] == dt[..12] by {
      forall i | 0 <= i < 12 ensures ds[i] == dt[i] {
        assert s[i] == s[..12][i] == t[..12][i] == t[i];
      }
    }
    CheckDigitsValidIffCompleted(s);
    CheckDigitsValidIffCompleted(t);
    if CheckDigitsValid(t) {
      DigitValuesInjective(s, t);
    }
  }

  /** The sum of a multiplier table from position `i` on. */
  function SumFrom(ms: seq<int>, i: nat): int
    requires i <= |ms|
    decreases |ms| - i
  {
    if i == |ms| then 0 else ms[i] + SumFrom(ms, i + 1)
  }

  /** A constant digit string weighs its digit times the sum of the multipliers. */
  lemma {:induction false} WeightedSumOfRepeated(ds: seq<int>, ms: seq<int>, v: int, i: nat)
    requires |ds| == |ms| && i <= |ms| && forall j :: 0 <= j < |ds| ==> ds[j] == v
    ensures DigitChecker.WeightedSumFrom(ds, ms, i) == v * SumFrom(ms, i)
    decreases |ms| - i
  {
    if i < |ms| {
      WeightedSumOfRepeated(ds, ms, v, i + 1);
      assert v * ms[i] + v * SumFrom(ms, i + 1) == v * (ms[i] + SumFrom(ms, i + 1));
    }
  }

  /** For a repeated digit `v`, the first check digit is the residue rule of
      `58 v mod 11`, and that equals `v` only for `v = 0`. */
  lemma FirstCheckDigitOfRepeated(base: seq<int>, v: int)
    requires |base| == 12 && 0 <= v <= 9 && forall i :: 0 <= i < |base| ==> base[i] == v
    ensures FirstCheckDigit(base) == v <==> v == 0
  {
    assert SumFrom(Dv1Multipliers, 0) == 58;
    WeightedSumOfRepeated(base, Dv1Multipliers, v, 0);
    if v == 0 {} else if v == 1 {} else if v == 2 {} else if v == 3 {} else if v == 4 {}
    else if v == 5 {} else if v == 6 {} else if v == 7 {} else if v == 8 {} else {}
  }

  /** For the repeated digit 0 the second check digit is 0 as well. */
  lemma SecondCheckDigitOfZeros(base: seq<int>)
    requires |base| == 13 && forall i :: 0 <= i < |base| ==> base[i] == 0
    ensures SecondCheckDigit(base) == 0
  {
    WeightedSumOfRepeated(base, Dv2Multipliers, 0, 0);
  }

  /** Among the ten strings of one digit repeated fourteen times, only
      `00000000000000` passes the check digits. */
  lemma RepeatedPassesOnlyForZero(s: string)
    requires MatchesUnformatted(s) && AllRepeated(s)
    ensures CheckDigitsValid(s) <==> s[0] == '0'
  {
    var ds := DigitValues(s);
    var v := ds[0];
    assert forall i :: 0 <= i < |ds| ==> ds[i] == v;
    CheckDigitsValidIff(s);
    FirstCheckDigitOfRepeated(ds[..12], v);
    if v == 0 {
      SecondCheckDigitOfZeros(ds[..13]);
    }
  }

  /** The two weighted sums of `11222333000181`: 102 (residue 3, check digit
      8) and 120 (residue 10, check digit 1). */
  lemma KnownWeightedSums()
    ensures DigitChecker.WeightedSum([1, 1, 2, 2, 2, 3, 3, 3, 0, 0, 0, 1], Dv1Multipliers) == 102
    ensures DigitChecker.WeightedSum([1, 1, 2, 2, 2, 3, 3, 3, 0, 0, 0, 1, 8], Dv2Multipliers) == 120
  {
  }

  /** `11222333000181` carries the check digits 8 and 1 and passes. */
  lemma KnownValidCheckDigits(s: string)
    requires s == "11222333000181"
    ensures MatchesUnformatted(s)
    ensures CheckDigitsValid(s)
  {
    var lit: seq<int> := [1, 1, 2, 2, 2, 3, 3, 3, 0, 0, 0, 1, 8, 1];
    assert AllDigits(s) by {
      forall i | 0 <= i < |s| ensures IsAsciiDigit(s[i]) {
        assert i == 0 || i == 1 || i == 2 || i == 3 || i == 4 || i == 5 || i == 6 || i == 7
            || i == 8 || i == 9 || i == 10 || i == 11 || i == 12 || i == 13;
      }
    }
    var ds := DigitValues(s);
    assert ds == lit by {
      forall i | 0 <= i < |s| ensures ds[i] == lit[i] {
        assert i == 0 || i == 1 || i == 2 || i == 3 || i == 4 || i == 5 || i == 6 || i == 7
            || i == 8 || i == 9 || i == 10 || i == 11 || i == 12 || i == 13;
      }
    }
    assert ds[..12] == [1, 1, 2, 2, 2, 3, 3, 3, 0, 0, 0, 1];
    assert ds[..13] == [1, 1, 2, 2, 2, 3, 3, 3, 0, 0, 0, 1, 8];
    KnownWeightedSums();
    CheckDigitsValidIff(s);
  }

  // ---------------------------------------------------------------------
  // Repeated digits
  // ---------------------------------------------------------------------

  /** Every character equals the first one (vacuously so for the empty string). */
  predicate AllRepeated(s: string) {
    forall i :: 0 <= i < |s| ==> s[i] == s[0]
  }

  // ---------------------------------------------------------------------
  // The validation as a function of the input
  // ---------------------------------------------------------------------

  /** The error, if any, of the shape stage. */
  function ShapeErrors(isFormatted: bool, raw: string): seq<CnpjError> {
    if isFormatted then (if MatchesFormatted(raw) then [] else [InvalidFormat])
    else if MatchesUnformatted(raw) then [] else [InvalidDigits]
  }

  /** The string the later stages examine: the input stripped of non-digits
      in formatted mode, the input itself otherwise. */
  function Examined(isFormatted: bool, raw: string): string {
    if isFormatted then StripNonDigits(raw) else raw
  }

  /** Whenever the shape stage passes, the later stages examine exactly
      fourteen ASCII digits, in either mode. */
  lemma ExaminedIsFourteenDigits(isFormatted: bool, raw: string)
    requires ShapeErrors(isFormatted, raw) == []
    ensures MatchesUnformatted(Examined(isFormatted, raw))
  {
    if isFormatted {
      FormattedStripsToDigits(raw);
    }
  }

  /** The verdict and the error list left by one call of `validate`. Each
      stage records its tag only while the list is still empty, so recording
      a tag makes the list exactly that one tag. */
  function Validation(isFormatted: bool, cnpj: Option<string>): (r: (bool, seq<CnpjError>))
    ensures r.0 <==> r.1 == []
    ensures |r.1| <= 1
    ensures cnpj.None? ==> r == (true, [])
  {
    match cnpj
    case None => (true, [])
    case Some(raw) =>
      var s := Examined(isFormatted, raw);
      var afterShape := ShapeErrors(isFormatted, raw);
      var afterRepeated :=
        if afterShape == [] && AllRepeated(s) then [RepeatedDigits] else afterShape;
      var afterCheck :=
        if afterRepeated == [] && (ExaminedIsFourteenDigits(isFormatted, raw); !CheckDigitsValid(s))
        then [InvalidCheckDigits] else afterRepeated;
      (afterCheck == [], afterCheck)
  }

  /** The shape stage passes for `raw` in the given mode. */
  predicate ShapeMatches(isFormatted: bool, raw: string) {
    if isFormatted then MatchesFormatted(raw) else MatchesUnformatted(raw)
  }

  /** Every outcome of a non-null validation, with the condition that yields it. */
  lemma ValidationOutcomes(isFormatted: bool, raw: string)
    ensures var (valid, errs) := Validation(isFormatted, Some(raw));
      && (errs == [InvalidFormat] <==> isFormatted && !MatchesFormatted(raw))
      && (errs == [InvalidDigits] <==> !isFormatted && !MatchesUnformatted(raw))
      && (errs == [RepeatedDigits] <==>
            ShapeMatches(isFormatted, raw) && AllRepeated(Examined(isFormatted, raw)))
      && (errs == [InvalidCheckDigits] <==>
            ShapeMatches(isFormatted, raw) && !AllRepeated(Examined(isFormatted, raw)) &&
            (ExaminedIsFourteenDigits(isFormatted, raw); !CheckDigitsValid(Examined(isFormatted, raw))))
      && (valid <==>
            ShapeMatches(isFormatted, raw) && !AllRepeated(Examined(isFormatted, raw)) &&
            (ExaminedIsFourteenDigits(isFormatted, raw); CheckDigitsValid(Examined(isFormatted, raw))))
  {
    if ShapeMatches(isFormatted, raw) {
      ExaminedIsFourteenDigits(isFormatted, raw);
    }
  }

  /** A formatted CNPJ and its fourteen digits are judged alike by the two
      modes, once each is given to the mode that expects it. */
  lemma FormattedAgreesWithUnformatted(raw: string)
    requires MatchesFormatted(raw)
    ensures Validation(true, Some(raw)) == Validation(false, Some(StripNonDigits(raw)))
  {
    FormattedStripsToDigits(raw);
  }

  /** Each mode rejects the other mode's shape, whatever its digits. */
  lemma WrongModeRejected(s: string)
    ensures MatchesFormatted(s) ==> Validation(false, Some(s)) == (false, [InvalidDigits])
    ensures MatchesUnformatted(s) ==> Validation(true, Some(s)) == (false, [InvalidFormat])
  {
    ShapesAreDisjoint(s);
  }

  /** A repeated-digit number of the right shape is rejected as such in both
      modes, whether or not its check digits would pass. */
  lemma RepeatedDigitsRejected(isFormatted: bool, raw: string)
    requires ShapeMatches(isFormatted, raw) && AllRepeated(Examined(isFormatted, raw))
    ensures Validation(isFormatted, Some(raw)) == (false, [RepeatedDigits])
  {
  }

  /** Altering the check digits of a number that validates makes it fail
      with a check-digit error, unless the result is a repeated-digit number. */
  lemma AlteredCheckDigitsRejected(s: string, t: string)
    requires Validation(false, Some(s)).0
    requires MatchesUnformatted(t) && t[..12] == s[..12] && t != s
    ensures Validation(false, Some(t)) ==
      (false, if AllRepeated(t) then [RepeatedDigits] else [InvalidCheckDigits])
  {
    ValidationOutcomes(false, s);
    CheckDigitChangeDetected(s, t);
  }

  /** The punctuated form of the known number has the formatted shape and
      strips to its fourteen digits. */
  lemma KnownFormattedStrips(f: string)
    requires f == "11.222.333/0001-81"
    ensures MatchesFormatted(f)
    ensures StripNonDigits(f) == "11222333000181"
  {
    assert MatchesFormatted(f) by {
      forall i | 0 <= i < |f| && i != 2 && i != 6 && i != 10 && i != 15
        ensures IsAsciiDigit(f[i])
      {
        assert i == 0 || i == 1 || i == 3 || i == 4 || i == 5 || i == 7 || i == 8 || i == 9
            || i == 11 || i == 12 || i == 13 || i == 14 || i == 16 || i == 17;
      }
    }
    FormattedStripsToDigits(f);
    assert f[0..2] == "11" && f[3..6] == "222" && f[7..10] == "333";
    assert f[11..15] == "0001" && f[16..18] == "81";
  }

  /** The known-valid number is accepted in both of its forms, and each form
      is rejected by the other mode. */
  lemma KnownValidNumber(s: string, f: string)
    requires s == "11222333000181" && f == "11.222.333/0001-81"
    ensures Validation(false, Some(s)) == (true, [])
    ensures Validation(true, Some(f)) == (true, [])
    ensures Validation(true, Some(s)) == (false, [InvalidFormat])
    ensures Validation(false, Some(f)) == (false, [InvalidDigits])
  {
    KnownValidCheckDigits(s);
    assert !AllRepeated(s) by { assert s[2] != s[0]; }
    KnownFormattedStrips(f);
    FormattedAgreesWithUnformatted(f);
    WrongModeRejected(s);
    WrongModeRejected(f);
  }

  /** `00000000000000` passes the check digits and is still rejected. */
  lemma AllZerosRejected(s: string)
    requires s == "00000000000000"
    ensures MatchesUnformatted(s) && CheckDigitsValid(s)
    ensures Validation(false, Some(s)) == (false, [RepeatedDigits])
  {
    assert forall i :: 0 <= i < |s| ==> s[i] == '0' by {
      forall i | 0 <= i < |s| ensures s[i] == '0' {
        assert i == 0 || i == 1 || i == 2 || i == 3 || i == 4 || i == 5 || i == 6 || i == 7
            || i == 8 || i == 9 || i == 10 || i == 11 || i == 12 || i == 13;
      }
    }
    assert MatchesUnformatted(s);
    assert AllRepeated(s);
    RepeatedPassesOnlyForZero(s);
  }

  // ---------------------------------------------------------------------
  // The validator object
  // ---------------------------------------------------------------------

  /** `CNPJValidator`: the mode is fixed at construction; `errors` holds
      the tags recorded by the most recent call of `Validate`. */
  class CnpjValidator {
    const isFormatted: bool
    var errors: seq<CnpjError>

    constructor (isFormatted: bool)
      ensures this.isFormatted == isFormatted && errors == []
    {
      this.isFormatted := isFormatted;
      errors := [];
    }

    /** `validate(cnpj)`: clears the list, runs the stages in order while the
        list is empty, and answers whether it stayed empty. A null input is
        valid and leaves the list empty. */
    method Validate(cnpj: Option<string>) returns (valid: bool)
      modifies this
      ensures (valid, errors) == Validation(isFormatted, cnpj)
      ensures valid <==> errors == []
      ensures |errors| <= 1
      ensures cnpj.None? ==> valid && errors == []
    {
      errors := [];
      if cnpj.None? {
        return true;
      }
      var s := cnpj.value;
      if isFormatted {
        if !MatchesFormatted(s) {
          errors := errors + [InvalidFormat];
        }
        s := StripNonDigits(s);
      } else if !MatchesUnformatted(s) {
        errors := errors + [InvalidDigits];
      }
      ghost var afterShape := errors;
      assert afterShape == ShapeErrors(isFormatted, cnpj.value);
      assert s == Examined(isFormatted, cnpj.value);
      if errors == [] {
        var repeated := HasAllRepeatedDigits(s);
        if repeated {
          errors := errors + [RepeatedDigits];
        }
      }
      ghost var afterRepeated := errors;
      assert afterRepeated == if afterShape == [] && AllRepeated(s) then [RepeatedDigits] else afterShape;
      if errors == [] {
        ExaminedIsFourteenDigits(isFormatted, cnpj.value);
        if !CheckDigitsValid(s) {
          errors := errors + [InvalidCheckDigits];
        }
      }
      assert errors == if afterRepeated == [] && !CheckDigitsValid(s) then [InvalidCheckDigits] else afterRepeated;
      valid := errors == [];
    }

    /** `hasAllRepeatedDigits`: compares every character with the first,
        stopping at the first that differs. */
    method HasAllRepeatedDigits(cnpj: string) returns (repeated: bool)
      ensures repeated <==> AllRepeated(cnpj)
    {
      var i := 1;
      while i < |cnpj|
        invariant 1 <= i
        invariant forall k :: 0 <= k < i && k < |cnpj| ==> cnpj[k] == cnpj[0]
      {
        if cnpj[i] != cnpj[0] {
          return false;
        }
        i := i + 1;
      }
      return true;
    }
  }

  /** The list is cleared on every call: validating `x`, then anything else,
      then `x` again gives the same verdict and the same list both times. */
  method RevalidateAfterOther(v: CnpjValidator, x: Option<string>, y: Option<string>)
    returns (first: bool, firstErrors: seq<CnpjError>, second: bool, secondErrors: seq<CnpjError>)
    modifies v
    ensures first == second && firstErrors == secondErrors
    ensures (first, firstErrors) == Validation(v.isFormatted, x)
  {
    first := v.Validate(x);
    firstErrors := v.errors;
    var _ := v.Validate(y);
    second := v.Validate(x);
    secondErrors := v.errors;
  }
}
