# CNPJ validator, modelled and verified in Dafny

A model of `CNPJValidator` from caelum-stella. The validator checks a CNPJ
(Brazilian company taxpayer number, 14 digits). It runs three stages:

1. A shape check, chosen by the `isFormatted` flag fixed at construction.
   In formatted mode the input must be `NN.NNN.NNN/NNNN-NN`, and its
   non-digits are then stripped. In unformatted mode it must be exactly 14
   ASCII digits.
2. A rejection of numbers whose digits are all the same.
3. A check of the two trailing check digits (positions 13 and 14). Each one
   is a weighted sum of the digits before it, taken mod 11, then mapped to a
   digit by the residue rule `resto < 2 ? 0 : 11 - resto`.

Each stage runs only while the instance's error list is still empty. The
list is cleared at the start of every call. `validate` answers whether the
list stayed empty. A null input is valid and leaves the list empty.

Files:

- `characters.dfy` (module `Characters`): the regex character class `\d`
  (ASCII digits only, as in Java's default mode), digit values, and the
  digit filter `replaceAll("[^0-9]", "")` with its lemmas.
- `digit_checker.dfy` (module `DigitChecker`): the weighted-sum check-digit
  engine. It takes a table from position to multipliers, a modulus, and the
  residue rule as a function value.
- `cnpj_validation.dfy` (module `CnpjValidation`): the constants and
  multiplier tables, the two shapes as character predicates, the residue
  rule, the engine as the validator configures it, the pure function
  `Validation` (verdict and error list of one call), the class
  `CnpjValidator` with its `errors` field and the `Validate` and
  `HasAllRepeatedDigits` methods, and the lemmas.

`Validate` is proved equal to `Validation`. The properties are proved
about `Validation`. Java's `null` is `Option.None`. The error tags
`INVALID_FORMAT`, `INVALID_DIGITS`, `REPEATED_DIGITS` and
`INVALID_CHECK_DIGITS` are `InvalidFormat`, `InvalidDigits`,
`RepeatedDigits` and `InvalidCheckDigits`.

The `DigitChecker` class is not part of this model. Its behaviour is taken
from the way the validator configures it:

- for each registered position P, sum `digit[i] * multiplier[i]` over the
  P - 1 digits before P;
- reduce the sum mod 11 and apply the residue rule;
- compare the result with the digit at P.

Every position is compared with the input's own digit. So the result is
the conjunction over all positions, and the order in which the map's keys
are visited does not matter.

Three facts about the code that the lemmas make explicit:

- Each later stage is guarded by `errors.isEmpty()`, so a call records at
  most one tag (`Validation`).
- Of the ten repeated-digit numbers only `00000000000000` passes the
  checksum (`RepeatedPassesOnlyForZero`).
- The check-digit positions are 13 and 14, counting from 1.

## Model

| member | source | states |
|---|---|---|
| `Characters.StripNonDigits` | stella-core/src/main/java/br/com/caelum/stella/validation/CNPJValidator.java:72 | the stripped string holds only ASCII digits and is no longer than the input |
| `Characters.StripKeepsExactlyDigits` | stella-core/src/main/java/br/com/caelum/stella/validation/CNPJValidator.java:72 | a character is in the stripped string exactly when it is a digit of the input |
| `Characters.StripAllDigits` | stella-core/src/main/java/br/com/caelum/stella/validation/CNPJValidator.java:72 | a string of digits only is left unchanged |
| `Characters.StripConcat` | stella-core/src/main/java/br/com/caelum/stella/validation/CNPJValidator.java:72 | stripping distributes over concatenation |
| `DigitChecker.WeightedSumNonNegative` | stella-core/src/main/java/br/com/caelum/stella/validation/CNPJValidator.java:34-40 | digits times non-negative multipliers give a non-negative sum, so the model's remainder is Java's `%` |
| `Characters.DigitValue` | stella-core/src/main/java/br/com/caelum/stella/validation/CNPJValidator.java:79 | definition: the numeric value `c - '0'` of an ASCII digit, a value 0..9 from which the digit is recovered |
| `Characters.DigitValues` | stella-core/src/main/java/br/com/caelum/stella/validation/CNPJValidator.java:79 | definition: the digit values of a string of ASCII digits, position by position, as the check-digit engine reads them |
| `DigitChecker.WellFormed` | stella-core/src/main/java/br/com/caelum/stella/validation/CNPJValidator.java:34-40 | definition (no contract): a table fits n-digit numbers when each position lies in 1..n and has one non-negative multiplier per preceding digit, and the modulus is positive |
| `DigitChecker.WeightedSum` | stella-core/src/main/java/br/com/caelum/stella/validation/CNPJValidator.java:34-40 | definition (no contract): the sum of `digit[i] * multiplier[i]`, left to right |
| `DigitChecker.ExpectedDigit` | stella-core/src/main/java/br/com/caelum/stella/validation/CNPJValidator.java:34-45 | definition (no contract): the residue rule applied to the weighted sum of the P - 1 digits before position P, mod the modulus |
| `DigitChecker.HasValidCheckDigits` | stella-core/src/main/java/br/com/caelum/stella/validation/CNPJValidator.java:34-45 | definition (no contract): every registered position holds the digit expected there |
| `CnpjValidation.MatchesFormatted` | stella-core/src/main/java/br/com/caelum/stella/validation/CNPJValidator.java:18 | definition (no contract): the whole string matches `\d{2}[.]\d{3}[.]\d{3}/\d{4}-\d{2}` with `\d` the ASCII digits |
| `CnpjValidation.MatchesUnformatted` | stella-core/src/main/java/br/com/caelum/stella/validation/CNPJValidator.java:17-19 | definition (no contract): the whole string matches `\d{14}`, i.e. exactly 14 ASCII digits |
| `CnpjValidation.Examined` | stella-core/src/main/java/br/com/caelum/stella/validation/CNPJValidator.java:68-72 | definition (no contract): the string the later stages see, the stripped input in formatted mode and the input itself otherwise |
| `CnpjValidation.AllRepeated` | stella-core/src/main/java/br/com/caelum/stella/validation/CNPJValidator.java:86-93 | definition (no contract): every character equals the first; `HasAllRepeatedDigits` is proved equal to it |
| `CnpjValidation.CheckDigitsValid` | stella-core/src/main/java/br/com/caelum/stella/validation/CNPJValidator.java:79 | definition (no contract): the configured engine's verdict on 14 ASCII digits; `CheckDigitsValidIff` states it per position |
| `CnpjValidation.CnpjDigitsSize` | stella-core/src/main/java/br/com/caelum/stella/validation/CNPJValidator.java:17 | constant (no contract): a CNPJ has 14 digits |
| `CnpjValidation.Mod` | stella-core/src/main/java/br/com/caelum/stella/validation/CNPJValidator.java:23 | constant (no contract): the modulus 11 |
| `CnpjValidation.Dv1Position` | stella-core/src/main/java/br/com/caelum/stella/validation/CNPJValidator.java:25 | constant (no contract): the first check digit is digit 13, counting from 1 |
| `CnpjValidation.Dv2Position` | stella-core/src/main/java/br/com/caelum/stella/validation/CNPJValidator.java:27 | constant (no contract): the second check digit is digit 14, counting from 1 |
| `CnpjValidation.Dv1Multipliers` | stella-core/src/main/java/br/com/caelum/stella/validation/CNPJValidator.java:28-29 | constant (no contract): the 12 multipliers of the first check digit |
| `CnpjValidation.Dv2Multipliers` | stella-core/src/main/java/br/com/caelum/stella/validation/CNPJValidator.java:30-31 | constant (no contract): the 13 multipliers of the second check digit |
| `CnpjValidation.CnpjChecker` | stella-core/src/main/java/br/com/caelum/stella/validation/CNPJValidator.java:33-45 | constant (no contract): the engine with positions 13 and 14 mapped to their tables, modulus 11 and the residue rule `ResidueToCheckDigit`; `CnpjCheckerWellFormed` states its shape |
| `CnpjValidation.FormattedStripsToDigits` | stella-core/src/main/java/br/com/caelum/stella/validation/CNPJValidator.java:68-72 | a string of the formatted shape strips to its five digit groups joined, which are exactly 14 ASCII digits |
| `CnpjValidation.ShapesAreDisjoint` | stella-core/src/main/java/br/com/caelum/stella/validation/CNPJValidator.java:18-19 | no string matches both the formatted and the unformatted pattern |
| `CnpjValidation.ResidueToCheckDigit` | stella-core/src/main/java/br/com/caelum/stella/validation/CNPJValidator.java:42-44 | every residue 0..10 maps to a digit 0..9; the digit is 0 exactly for residues 0 and 1; otherwise residue plus digit is a multiple of 11 |
| `CnpjValidation.CnpjCheckerWellFormed` | stella-core/src/main/java/br/com/caelum/stella/validation/CNPJValidator.java:25-40 | the tables have 12 and 13 entries (position minus one) and the configuration fits 14-digit numbers |
| `CnpjValidation.FirstCheckDigit` | stella-core/src/main/java/br/com/caelum/stella/validation/CNPJValidator.java:25-29 | the first check digit of a 12-digit base is a digit 0..9 |
| `CnpjValidation.SecondCheckDigit` | stella-core/src/main/java/br/com/caelum/stella/validation/CNPJValidator.java:27-31 | the second check digit of a 13-digit base is a digit 0..9 |
| `CnpjValidation.CheckDigitsValidIff` | stella-core/src/main/java/br/com/caelum/stella/validation/CNPJValidator.java:34-45 | the check passes iff digit 13 is the first check digit of digits 1..12 and digit 14 is the second check digit of digits 1..13 |
| `CnpjValidation.WithCheckDigits` | stella-core/src/main/java/br/com/caelum/stella/validation/CNPJValidator.java:34-45 | completing a 12-digit base gives 14 digits that start with the base |
| `CnpjValidation.CheckDigitsValidIffCompleted` | stella-core/src/main/java/br/com/caelum/stella/validation/CNPJValidator.java:34-45 | a number passes iff it equals its first twelve digits completed with their check digits (both directions) |
| `CnpjValidation.CheckDigitChangeDetected` | stella-core/src/main/java/br/com/caelum/stella/validation/CNPJValidator.java:34-45 | changing either or both check digits of a passing number makes it fail |
| `CnpjValidation.RepeatedPassesOnlyForZero` | stella-core/src/main/java/br/com/caelum/stella/validation/CNPJValidator.java:28-45 | of the ten repeated-digit numbers only `00000000000000` passes the checksum |
| `CnpjValidation.KnownWeightedSums` | stella-core/src/main/java/br/com/caelum/stella/validation/CNPJValidator.java:28-31 | the weighted sums of `11222333000181` are 102 and 120 |
| `CnpjValidation.KnownValidCheckDigits` | stella-core/src/main/java/br/com/caelum/stella/validation/CNPJValidator.java:25-45 | `11222333000181` is 14 digits and passes the checksum (check digits 8 and 1) |
| `CnpjValidation.ShapeErrors` | stella-core/src/main/java/br/com/caelum/stella/validation/CNPJValidator.java:68-75 | definition of the shape stage's tag (no contract): `[InvalidFormat]` when formatted mode's pattern fails, `[InvalidDigits]` when unformatted mode's pattern fails, else nothing; its outcomes are stated by `ValidationOutcomes` |
| `CnpjValidation.ExaminedIsFourteenDigits` | stella-core/src/main/java/br/com/caelum/stella/validation/CNPJValidator.java:68-79 | once the shape stage passes, the later stages examine exactly 14 ASCII digits in either mode |
| `CnpjValidation.Validation` | stella-core/src/main/java/br/com/caelum/stella/validation/CNPJValidator.java:63-84 | valid iff the error list is empty; the list has at most one tag; a null input gives `(true, [])` |
| `CnpjValidation.ValidationOutcomes` | stella-core/src/main/java/br/com/caelum/stella/validation/CNPJValidator.java:63-83 | for non-null input, each of the four tags, and validity, occurs exactly under the condition of its stage: earlier stages passed and this one failed (or, for validity, all passed) |
| `CnpjValidation.FormattedAgreesWithUnformatted` | stella-core/src/main/java/br/com/caelum/stella/validation/CNPJValidator.java:68-75 | a formatted input is judged in formatted mode as its digits are in unformatted mode |
| `CnpjValidation.WrongModeRejected` | stella-core/src/main/java/br/com/caelum/stella/validation/CNPJValidator.java:68-75 | a punctuated input in unformatted mode gives `[InvalidDigits]`; a 14-digit input in formatted mode gives `[InvalidFormat]` |
| `CnpjValidation.RepeatedDigitsRejected` | stella-core/src/main/java/br/com/caelum/stella/validation/CNPJValidator.java:76-77 | a well-shaped repeated-digit input gives `(false, [RepeatedDigits])` whatever its checksum |
| `CnpjValidation.AlteredCheckDigitsRejected` | stella-core/src/main/java/br/com/caelum/stella/validation/CNPJValidator.java:76-81 | altering the check digits of a valid number gives `[InvalidCheckDigits]`, or `[RepeatedDigits]` if the result is a repeated-digit number |
| `CnpjValidation.KnownFormattedStrips` | stella-core/src/main/java/br/com/caelum/stella/validation/CNPJValidator.java:68-72 | `11.222.333/0001-81` has the formatted shape and strips to `11222333000181` |
| `CnpjValidation.KnownValidNumber` | stella-core/src/main/java/br/com/caelum/stella/validation/CNPJValidator.java:63-83 | `11222333000181` (unformatted) and `11.222.333/0001-81` (formatted) are valid with no errors; each gives the other mode's shape error |
| `CnpjValidation.AllZerosRejected` | stella-core/src/main/java/br/com/caelum/stella/validation/CNPJValidator.java:76-81 | `00000000000000` passes the checksum and is still rejected with `[RepeatedDigits]` |
| `CnpjValidation.CnpjValidator.constructor` | stella-core/src/main/java/br/com/caelum/stella/validation/CNPJValidator.java:47-52 | the mode is the one given and the error list starts empty |
| `CnpjValidation.CnpjValidator.Validate` | stella-core/src/main/java/br/com/caelum/stella/validation/CNPJValidator.java:63-84 | the verdict and the new error list equal `Validation` of the mode and the input (not the previous list); valid iff the list is empty; at most one tag; null gives true and an empty list |
| `CnpjValidation.CnpjValidator.HasAllRepeatedDigits` | stella-core/src/main/java/br/com/caelum/stella/validation/CNPJValidator.java:86-93 | the answer is true iff every character equals the first (true for the empty string) |
| `CnpjValidation.RevalidateAfterOther` | stella-core/src/main/java/br/com/caelum/stella/validation/CNPJValidator.java:64 | validating `x`, then another input, then `x` again gives the same verdict and error list both times |

## Left out

- `getLastValidationMessages`, `MessageProducer` and `ValidationMessage` (CNPJValidator.java:54-61) are left out. They hand each tag to an external localisation collaborator whose behaviour is not visible. The tags themselves are the `errors` field, in the order recorded.
- The `messageProducer` constructor argument is left out for the same reason.
- `StellaCPFValidator.java`: an adapter into the Hibernate Validator annotation framework. It depends on `CPFValidator` and a foreign library, neither of which is part of this model.
- The `DigitChecker` class is not part of this model. It is modelled by the contract its configuration implies, and only on inputs of 14 ASCII digits. `ExaminedIsFourteenDigits` proves the validator never calls it on anything else.
- The Java regex engine: the two patterns are per-character predicates and `replaceAll` is a digit filter.
- Thread safety of the shared `errors` field: concurrent reuse of one instance is a hazard of the design, not behaviour to verify. The model is sequential.
- UTF-16: Java measures strings in UTF-16 code units, Dafny in Unicode scalar values. They differ only for characters outside the Basic Multilingual Plane and for unpaired surrogates, which a Java `String` can hold and a Dafny `string` cannot. Neither pattern accepts such characters and stripping removes them, so no verdict depends on the difference.
- Integer width: the weighted sums are at most 9 × 64, so Java's 32-bit `int` cannot overflow and unbounded integers are exact.
