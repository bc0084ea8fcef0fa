/** Classification of an IBAN as a QR-IBAN (`isQRIBAN` in src/createqrbill.js).
    The Swiss implementation guidelines for the QR-bill reserve the institution
    identifiers 30000 to 31999 for QR-IBANs; the identifier is the five code units
    at offset 4 of the IBAN once its whitespace is removed. */
module QrIban {
  import opened Wrappers
  import opened JsText

  const IidStart := 4
  const IidEnd := 9
  const QrIidMin := 30000
  const QrIidMax := 31999

  /** A value read by `parseInt` that lies in [30000, 31999]; NaN compares false
      with both bounds. */
  predicate InQrRange(iid: Option<int>) {
    iid.Some? && QrIidMin <= iid.value <= QrIidMax
  }

  /** The institution-identifier rule on a whitespace-free IBAN: five decimal
      digits at positions 4..8 whose value is in the QR-IBAN range. */
  predicate QrIidField(clean: JsString) {
    && |clean| >= IidEnd
    && AllDigits(clean[IidStart..IidEnd])
    && QrIidMin <= DecimalValue(clean[IidStart..IidEnd]) <= QrIidMax
  }

  /** The institution-identifier rule stated directly on an IBAN as typed. */
  predicate HasQrIid(iban: JsString) {
    QrIidField(Strip(iban))
  }

  /** `parseInt` only reaches 30000 on a complete five-digit field: reading the
      identifier of a whitespace-free IBAN gives a value in the QR-IBAN range
      exactly when positions 4..8 exist, are all digits and denote such a value. */
  lemma IidFieldReading(clean: JsString)
    requires NoWhitespace(clean)
    ensures InQrRange(ParseInt(Substring(clean, IidStart, IidEnd))) <==> QrIidField(clean)
  {
    var field := Substring(clean, IidStart, IidEnd);
    assert Pow10(4) == 10000;
    if InQrRange(ParseInt(field)) {
      if |field| < 5 {
        Pow10Monotone(|field|, 4);
        assert false;
      }
      assert field == clean[IidStart..IidEnd];
      assert !IsWhitespace(field[0]);
      ParseIntReachesFullWidth(field);
    }
    if |clean| >= IidEnd {
      assert field == clean[IidStart..IidEnd];
    }
  }

  /** `isQRIBAN(iban)`: `parseInt(cleanIban.substring(4, 9), 10)` lies in
      [30000, 31999]. Because `parseInt` only reaches 30000 on a complete
      five-digit field, this is exactly the institution-identifier rule. */
  function IsQrIban(iban: JsString): (b: bool)
    ensures b <==> HasQrIid(iban)
  {
    IidFieldReading(Strip(iban));
    InQrRange(ParseInt(Substring(Strip(iban), IidStart, IidEnd)))
  }

  /** A stripped IBAN shorter than nine code units is never a QR-IBAN. */
  lemma ShortIbanIsNotQr(iban: JsString)
    requires |Strip(iban)| < IidEnd
    ensures !IsQrIban(iban)
  {
  }

  /** A non-digit anywhere in the institution identifier, as in a partly numeric
      field such as "3000X", makes the IBAN not a QR-IBAN. */
  lemma NonDigitIidIsNotQr(iban: JsString, j: nat)
    requires IidStart <= j < IidEnd && j < |Strip(iban)|
    requires !IsDigit(Strip(iban)[j])
    ensures !IsQrIban(iban)
  {
    var clean := Strip(iban);
    if |clean| >= IidEnd {
      var field := clean[IidStart..IidEnd];
      assert field[j - IidStart] == clean[j];
      assert !AllDigits(field);
    }
    assert !QrIidField(clean);
  }

  /** Inserting whitespace anywhere in an IBAN does not change its classification
      (and so, read backwards, neither does removing it). */
  lemma IsQrIbanIgnoresWhitespace(iban: JsString, i: nat, w: JsString)
    requires i <= |iban|
    requires AllWhitespace(w)
    ensures IsQrIban(iban[..i] + w + iban[i..]) == IsQrIban(iban)
  {
    StripIgnoresInsertedWhitespace(iban, i, w);
  }
}
