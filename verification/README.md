# Swiss QR-bill reference decision, modelled in Dafny

This project models the reference decision of the QR-bill generator in
`src/createqrbill.js`. A Swiss QR-bill carries one of three kinds of payment
reference:

- **QRR**: 27 decimal digits. It is mandatory when the creditor account is a QR-IBAN.
- **SCOR**: the ISO 11649 creditor reference: `RF`, two check digits, and 1 to 21 letters or digits.
- **NON**: no reference.

The code decides between them in two steps:

1. `isQRIBAN` removes the whitespace from the IBAN. It reads the five code units at
   offset 4 (the institution identifier) with `parseInt(_, 10)`. It answers true when
   the value is in 30000..31999, the QR-IBAN range of the Swiss implementation
   guidelines for the QR-bill.
2. The block of `createQRBill` that picks the reference strips the whitespace from
   the user's reference. On a QR-IBAN it keeps a 27-digit reference and otherwise
   substitutes the reference derived from the document name (`getReferenceCode`). On
   a regular IBAN it keeps an empty or SCOR-shaped reference and otherwise stops with
   an error that shows the input as typed.

The model takes that block out of the asynchronous `createQRBill` as the pure
function `Reference.Resolve`. `Reference.DecideReference` wires it to the IBAN
classification and to the `reference_number_full || ""` read.

Modules:

- `Wrappers`: `Option` and `Result`.
- `JsText`: the JavaScript built-ins the code relies on. It models strings as
  sequences of UTF-16 code units, so `substring(4, 9)` counts code units as
  JavaScript does. It covers the `\s` and `\d` classes, `replace(/\s/g, "")`
  (`Strip`), `substring` with its clamping, and `parseInt(_, 10)`. In `parseInt`,
  leading whitespace is skipped, one optional sign is read, then the longest run of
  digits. With no digit the result is NaN, modelled as `None`.
- `Pattern`: the meaning of the anchored regular expressions the code uses. Each
  term is a character class with a repetition count, and matching means the input
  splits into one piece per term.
- `ReferenceShape`: the QRR and SCOR shapes as explicit character-class
  predicates. Each is proved equal to its regular expression, `/^\d{27}$/` and
  `/^RF\d{2}[A-Z0-9]{1,21}$/i`. Without the `u` flag, JavaScript's case-insensitive
  matching never folds a non-ASCII code unit onto an ASCII letter. So the `i` flag
  adds exactly the lower-case ASCII letters.
- `QrIban`: `isQRIBAN` and its characterisation.
- `Reference`: the resolution and its properties.
- `Scenarios`: worked examples of the decision, proved as lemmas, on the IBANs
  CH45 3080 8001 2345 6789 0 (a QR-IBAN) and CH93 0076 2011 6238 5295 7 (a regular
  IBAN), each with an empty, a 27-digit, a SCOR-shaped and a malformed reference.

`getReferenceCode` is not part of this model. It is the function-typed parameter
`referenceCode`, and only `ResolvedReferenceFitsRegime` assumes anything about it,
in a `requires` that says so.

## Model

| member | source | states |
|---|---|---|
| JsText.Strip | src/createqrbill.js:31 | `replace(/\s/g, "")` leaves no whitespace and never lengthens the string |
| JsText.StripKeepsOtherCodeUnits | src/createqrbill.js:31 | every non-whitespace code unit survives stripping as often as it occurred; whitespace is gone |
| JsText.StripAppend | src/createqrbill.js:31 | stripping distributes over concatenation |
| JsText.StripIgnoresInsertedWhitespace | src/createqrbill.js:31 | inserting whitespace anywhere leaves the stripped string unchanged |
| JsText.StripIdempotent | src/createqrbill.js:67 | stripping an already stripped string changes nothing |
| JsText.TrimStart | src/createqrbill.js:32 | the whitespace `parseInt` skips first: the result is a suffix of the input, everything dropped is whitespace, and the result does not start with whitespace |
| JsText.Substring | src/createqrbill.js:32 | for start ≤ end, `substring(start, end)` has length min(end, len) - min(start, len); it is the plain slice when the bounds fit, the whole rest from `start` when only `end` runs past the length, and empty when both do |
| JsText.SubstringSymmetric | src/createqrbill.js:32 | `substring` gives the same result whichever order its bounds come in |
| JsText.DigitPrefix | src/createqrbill.js:32 | the run `parseInt` reads is the longest prefix of digits |
| JsText.DecimalValue | src/createqrbill.js:32 | n digits denote a value below 10^n, and at least 10^(n-1) without a leading zero |
| JsText.DecimalValueLeadingDigit | src/createqrbill.js:32 | reading most significant digit first agrees with the definition: a leading digit c before n more digits adds c·10^n |
| JsText.ReadDigits | src/createqrbill.js:32 | the digit step of `parseInt`: a value exactly when the text starts with a digit, below 10^len, and the decimal value of an all-digit text |
| JsText.ReadSigned | src/createqrbill.js:32 | the sign step of `parseInt`: a value exactly when a digit comes first or right after a single `+` or `-`, with magnitude below 10^len |
| JsText.ParseInt | src/createqrbill.js:32 | an empty or all-whitespace string gives NaN; an all-digit string parses to its decimal value; a leading non-digit, non-sign, non-space gives NaN; the magnitude stays below 10^len |
| JsText.ParseIntReadsLongestPrefix | src/createqrbill.js:32 | a partly numeric string reads as the value of its leading digit run, so "3000X" reads as 3000 |
| JsText.ParseIntReadsMinus | src/createqrbill.js:32 | a leading `-` before a digit run negates its value, so "-30808" reads as -30808 |
| JsText.ParseIntReadsPlus | src/createqrbill.js:32 | a leading `+` before a digit run is read and dropped, so "+3000" reads as 3000 |
| JsText.ParseIntSignWithoutDigits | src/createqrbill.js:32 | a sign with no digit after it gives NaN |
| JsText.ParseIntSkipsLeadingWhitespace | src/createqrbill.js:32 | whitespace before the number never changes what `parseInt` reads |
| JsText.ParseIntReachesFullWidth | src/createqrbill.js:32 | a value of at least 10^(len-1) is only read from a string made entirely of digits |
| QrIban.IidFieldReading | src/createqrbill.js:31-33 | on a whitespace-free IBAN, `parseInt(substring(4, 9))` lands in 30000..31999 exactly when positions 4..8 exist, are all digits and denote a value in that range |
| QrIban.IsQrIban | src/createqrbill.js:30-34 | `isQRIBAN` answers true exactly when the stripped IBAN has five digits at positions 4..8 whose value is in 30000..31999, the institution-identifier rule |
| QrIban.ShortIbanIsNotQr | src/createqrbill.js:30-34 | a stripped IBAN shorter than nine code units is not a QR-IBAN |
| QrIban.NonDigitIidIsNotQr | src/createqrbill.js:32-33 | a non-digit anywhere in the identifier field, as in "3000X", means not a QR-IBAN |
| QrIban.IsQrIbanIgnoresWhitespace | src/createqrbill.js:31 | inserting or removing whitespace in the IBAN never changes the classification |
| Pattern.FullMatch | src/createqrbill.js:72 | `/^p$/.test(s)` holds when `s` splits into one piece per term, each in its class and repeated within its bounds; any match spans between the least and the greatest length of the pattern |
| ReferenceShape.IsQrrShape | src/createqrbill.js:72 | a QRR reference is exactly 27 decimal digits, so it is non-empty and holds no whitespace |
| ReferenceShape.IsScorShape | src/createqrbill.js:82 | a SCOR reference is R, F (either case), two digits and 1 to 21 ASCII letters or digits, so it is non-empty and holds no whitespace |
| ReferenceShape.QrrRegexAgrees | src/createqrbill.js:72 | `/^\d{27}$/` matches exactly the 27-digit strings |
| ReferenceShape.ScorRegexAgrees | src/createqrbill.js:82 | `/^RF\d{2}[A-Z0-9]{1,21}$/i` matches exactly R/r, F/f, two digits, then 1 to 21 ASCII letters or digits |
| ReferenceShape.ShapesExclusive | src/createqrbill.js:69-90 | no reference is both QRR- and SCOR-shaped |
| Reference.Resolve | src/createqrbill.js:65-90 | failure happens exactly for a regular IBAN with a non-empty, non-SCOR stripped reference, and carries the raw input; a success is the stripped input, the empty reference or the derived reference, as the regime allows |
| Reference.QrKeepsQrrReference | src/createqrbill.js:72-73 | on a QR-IBAN a stripped reference matching `/^\d{27}$/` is used verbatim |
| Reference.QrFallsBackToDerivedReference | src/createqrbill.js:74-77 | on a QR-IBAN any other reference yields `getReferenceCode(docname)`, whatever the user typed |
| Reference.QrNeverFails | src/createqrbill.js:69-78 | a QR-IBAN never produces an error |
| Reference.RegularBlankIsNon | src/createqrbill.js:79-89 | on a regular IBAN a blank reference yields the empty reference (NON), not an error |
| Reference.RegularKeepsScorReference | src/createqrbill.js:81-87 | on a regular IBAN a stripped reference matching the SCOR pattern is kept, and is 5 to 25 code units long |
| Reference.RegularRejectsOtherReference | src/createqrbill.js:82-85 | on a regular IBAN any other non-empty reference is rejected with the unstripped input, with no fallback to NON |
| Reference.ResolveIgnoresWhitespace | src/createqrbill.js:67 | whitespace inserted into the user reference changes neither success nor the resolved reference |
| Reference.ResolvedReferenceFitsRegime | src/createqrbill.js:65-90 | a regular IBAN's reference is empty or SCOR-shaped and never QRR-shaped; a QR-IBAN's is QRR-shaped when the derived one is |
| Reference.DecideReference | src/createqrbill.js:66-69 | the decision is the resolution applied to the institution-identifier rule on the IBAN and to the reference field, with an absent field read as the empty string; so a missing field never fails and gives the empty or the derived reference |
| Reference.DecideReferenceIgnoresIbanWhitespace | src/createqrbill.js:69 | whitespace in the IBAN never changes the decision |
| Scenarios.QrIbanExample | src/createqrbill.js:30-34 | CH45 3080 8001 2345 6789 0 (identifier 30808) is a QR-IBAN |
| Scenarios.RegularIbanExample | src/createqrbill.js:30-34 | CH93 0076 2011 6238 5295 7 (identifier 00762, parsed as 762) is not |
| Scenarios.QrIbanWithoutReference | src/createqrbill.js:74-77 | QR-IBAN with no reference: the reference derived from SINV-0001 |
| Scenarios.QrIbanWithQrrReference | src/createqrbill.js:72-73 | QR-IBAN with 210000000003139471430009017: that reference |
| Scenarios.RegularIbanWithScorReference | src/createqrbill.js:81-87 | regular IBAN with RF18539007547034: that reference |
| Scenarios.RegularIbanWithoutReference | src/createqrbill.js:65-66 | regular IBAN with an absent reference field: the empty reference |
| Scenarios.RegularIbanWithMalformedReference | src/createqrbill.js:82-85 | regular IBAN with 12345: rejected, showing 12345 |
| Scenarios.QrIbanWithScorReference | src/createqrbill.js:74-77 | QR-IBAN with RF18539007547034: replaced by the reference derived from SINV-0001 |
| Scenarios.QrIbanWithMalformedReference | src/createqrbill.js:74-77 | QR-IBAN with 12345: replaced by the reference derived from SINV-0001, with no error |
| Scenarios.RegularIbanWithQrrReference | src/createqrbill.js:82-85 | regular IBAN with 210000000003139471430009017: rejected, since a 27-digit reference is not SCOR-shaped |

## Left out

- `src/index.js`: the form-event wiring (`on_submit`, `before_submit`, `refresh`, the custom button), the `docstatus` guard and the copy to `esr_reference_code` belong to the host framework.
- `createQRBill` lines 36-60: the asynchronous document, language and currency look-ups and the early return when the currency is missing are I/O. The IBAN, the reference field and the document name are inputs instead.
- `createQRBill` lines 92-114: the progress and error messages, the upper-casing of country codes, and `generateQRConfig` and `generateQRPDF` are UI or calls into code outside this model. The error message at line 84 is represented by the `InvalidReferenceFormat` result, which carries the text it shows.
- The `console.log` at line 77 is an informational side effect and is not modelled.
- `getReferenceCode` is not part of this model. It is a parameter, so nothing is claimed about its output.
- Check digits: neither the QRR modulo-10 recursive check digit nor the ISO 11649 modulo-97 check is verified by the code, and the model claims neither.
- JsText.ParseInt: the result is an unbounded integer. This leaves out the distinction between -0 and +0, which compare alike, and double rounding above 2^53, which needs at least 16 digits while the identifier field has at most five code units.
- Reference.ResolvedReferenceFitsRegime: for a QR-IBAN the QRR shape is proved only under the stated assumption that the derived reference is QRR-shaped, because the code of `getReferenceCode` is not part of this model.
- Values that are not strings: an `iban` or `reference_number_full` of another JavaScript type would go through `replace` or `||` differently. Both are modelled as strings, and an absent reference field as `None`.
- The code does not check that the reference derived by `getReferenceCode` has 27 digits (see `ResolvedReferenceFitsRegime`). It classifies any string, so an empty IBAN is simply not a QR-IBAN.
