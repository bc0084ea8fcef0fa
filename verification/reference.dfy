/** The reference decision of `createQRBill` (src/createqrbill.js), taken out of
    the asynchronous bill generation as pure functions. `getReferenceCode`, which
    derives a QRR reference from the document name and whose code is not part of
    this model, is a parameter `referenceCode`; nothing is assumed about it except
    where a lemma says so in its `requires`. */
module Reference {
  import opened Wrappers
  import opened JsText
  import opened Pattern
  import opened ReferenceShape
  import opened QrIban

  /** The only error of the decision: a regular IBAN with a reference that is
      neither empty nor SCOR-shaped. It carries the user's input as typed,
      whitespace included, which is what the error message shows. */
  datatype ReferenceError = InvalidReferenceFormat(original: JsString)

  /** The reference for the bill, given whether the creditor account is a
      QR-IBAN and the user's reference field:
      - QR-IBAN: a QRR-shaped reference is kept, anything else is replaced by
        the reference derived from the document name;
      - regular IBAN: no reference (NON) stays empty, a SCOR-shaped reference is
        kept, anything else is rejected. */
  function Resolve(isQr: bool, userReference: JsString, docname: JsString, referenceCode: JsString -> JsString)
    : (r: Result<JsString, ReferenceError>)
    ensures r.Failure? <==> !isQr && Strip(userReference) != [] && !IsScorShape(Strip(userReference))
    ensures r.Failure? ==> r.error.original == userReference
    ensures r.Success? && !isQr ==>
      || (r.value == [] && Strip(userReference) == [])
      || (IsScorShape(r.value) && r.value == Strip(userReference))
    ensures r.Success? && isQr ==>
      || (IsQrrShape(r.value) && r.value == Strip(userReference))
      || (!IsQrrShape(Strip(userReference)) && r.value == referenceCode(docname))
  {
    var clean := Strip(userReference);
    if isQr then
      if IsQrrShape(clean) then Success(clean) else Success(referenceCode(docname))
    else if clean == [] then Success([])
    else if IsScorShape(clean) then Success(clean)
    else Failure(InvalidReferenceFormat(userReference))
  }

  /** QR-IBAN: a stripped reference matching `/^\d{27}$/` is used verbatim. */
  lemma QrKeepsQrrReference(userReference: JsString, docname: JsString, referenceCode: JsString -> JsString)
    requires FullMatch(QrrRegex, Strip(userReference))
    ensures Resolve(true, userReference, docname, referenceCode) == Success(Strip(userReference))
  {
    QrrRegexAgrees(Strip(userReference));
  }

  /** QR-IBAN: any other reference (empty, too short, with a non-digit, SCOR-shaped)
      gives the derived reference, which is never an error and does not depend on
      what the user typed. */
  lemma QrFallsBackToDerivedReference(u1: JsString, u2: JsString, docname: JsString, referenceCode: JsString -> JsString)
    requires !FullMatch(QrrRegex, Strip(u1))
    requires !FullMatch(QrrRegex, Strip(u2))
    ensures Resolve(true, u1, docname, referenceCode) == Success(referenceCode(docname))
    ensures Resolve(true, u1, docname, referenceCode) == Resolve(true, u2, docname, referenceCode)
  {
    QrrRegexAgrees(Strip(u1));
    QrrRegexAgrees(Strip(u2));
  }

  /** A QR-IBAN never rejects a reference. */
  lemma QrNeverFails(userReference: JsString, docname: JsString, referenceCode: JsString -> JsString)
    ensures Resolve(true, userReference, docname, referenceCode).Success?
  {
  }

  /** Regular IBAN: a reference made only of whitespace (or nothing) is the NON
      case, the empty reference, and never an error. */
  lemma RegularBlankIsNon(userReference: JsString, docname: JsString, referenceCode: JsString -> JsString)
    requires AllWhitespace(userReference)
    ensures Resolve(false, userReference, docname, referenceCode) == Success([])
  {
    StripErasesWhitespace(userReference);
  }

  /** Regular IBAN: a stripped reference matching `/^RF\d{2}[A-Z0-9]{1,21}$/i` is
      kept as the SCOR reference; it is then 5 to 25 code units long. */
  lemma RegularKeepsScorReference(userReference: JsString, docname: JsString, referenceCode: JsString -> JsString)
    requires FullMatch(ScorRegex, Strip(userReference))
    ensures Resolve(false, userReference, docname, referenceCode) == Success(Strip(userReference))
    ensures 5 <= |Strip(userReference)| <= 25
  {
    ScorRegexAgrees(Strip(userReference));
  }

  /** Regular IBAN: a non-empty stripped reference that does not match the SCOR
      pattern is rejected with the input as typed; there is no fallback to NON. */
  lemma RegularRejectsOtherReference(userReference: JsString, docname: JsString, referenceCode: JsString -> JsString)
    requires Strip(userReference) != []
    requires !FullMatch(ScorRegex, Strip(userReference))
    ensures Resolve(false, userReference, docname, referenceCode) == Failure(InvalidReferenceFormat(userReference))
  {
    ScorRegexAgrees(Strip(userReference));
  }

  /** Inserting whitespace into the user's reference changes nothing but the text
      an error carries: success and failure agree, and successful references are
      identical. */
  lemma ResolveIgnoresWhitespace(
    isQr: bool, userReference: JsString, i: nat, w: JsString, docname: JsString, referenceCode: JsString -> JsString)
    requires i <= |userReference|
    requires AllWhitespace(w)
    ensures var spaced := userReference[..i] + w + userReference[i..];
      var r1 := Resolve(isQr, userReference, docname, referenceCode);
      var r2 := Resolve(isQr, spaced, docname, referenceCode);
      && r1.Success? == r2.Success?
      && (r1.Success? ==> r1.value == r2.value)
      && (r2.Failure? ==> r2.error == InvalidReferenceFormat(spaced))
  {
    StripIgnoresInsertedWhitespace(userReference, i, w);
  }

  /** The regime invariant of a resolved reference: on a regular IBAN it is empty
      (NON) or SCOR-shaped and never QRR-shaped; on a QR-IBAN it is QRR-shaped,
      provided the derived reference is. That proviso is an assumption about
      `getReferenceCode`, whose code is not part of this model. */
  lemma ResolvedReferenceFitsRegime(
    isQr: bool, userReference: JsString, docname: JsString, referenceCode: JsString -> JsString)
    requires isQr ==> IsQrrShape(referenceCode(docname))
    ensures var r := Resolve(isQr, userReference, docname, referenceCode);
      && (r.Success? && isQr ==> FullMatch(QrrRegex, r.value))
      && (r.Success? && !isQr ==> r.value == [] || FullMatch(ScorRegex, r.value))
      && (r.Success? && !isQr ==> !FullMatch(QrrRegex, r.value))
  {
    var r := Resolve(isQr, userReference, docname, referenceCode);
    if r.Success? {
      QrrRegexAgrees(r.value);
      ScorRegexAgrees(r.value);
      ShapesExclusive(r.value);
    }
  }

  /** Lines 65-90 of `createQRBill`: `reference_number_full` (absent or empty
      reads as "") resolved against the classification of the account's IBAN. */
  function DecideReference(
    iban: JsString, referenceField: Option<JsString>, docname: JsString, referenceCode: JsString -> JsString)
    : (r: Result<JsString, ReferenceError>)
    ensures r == Resolve(HasQrIid(iban), referenceField.GetOr([]), docname, referenceCode)
    ensures referenceField.None? ==> r == Success(if HasQrIid(iban) then referenceCode(docname) else [])
  {
    Resolve(IsQrIban(iban), referenceField.GetOr([]), docname, referenceCode)
  }

  /** The whole decision is insensitive to whitespace inserted into the IBAN. */
  lemma DecideReferenceIgnoresIbanWhitespace(
    iban: JsString, i: nat, w: JsString, referenceField: Option<JsString>, docname: JsString, referenceCode: JsString -> JsString)
    requires i <= |iban|
    requires AllWhitespace(w)
    ensures DecideReference(iban[..i] + w + iban[i..], referenceField, docname, referenceCode)
         == DecideReference(iban, referenceField, docname, referenceCode)
  {
    IsQrIbanIgnoresWhitespace(iban, i, w);
  }
}
