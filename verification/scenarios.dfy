/** Worked examples of the reference decision on concrete IBANs and references:
    a QR-IBAN (institution identifier 30808) and a regular IBAN (identifier 00762),
    each with an empty, a QRR-shaped, a SCOR-shaped and a malformed reference. */
module Scenarios {
  import opened Wrappers
  import opened JsText
  import opened ReferenceShape
  import opened QrIban
  import opened Reference

  /** CH45 3080 8001 2345 6789 0, split at its whitespace and right after the
      fifth code unit of the identifier field. */
  const QrIbanText := Js("CH45") + Js(" ") + Js("3080") + Js(" ") + Js("8") + Js("001 2345 6789 0")
  /** CH93 0076 2011 6238 5295 7, split at its whitespace and right after the
      fifth code unit of the identifier field. */
  const RegularIbanText := Js("CH93") + Js(" ") + Js("0076") + Js(" ") + Js("2") + Js("011 6238 5295 7")
  const QrrText := Js("210000000003139471430009017")
  const ScorText := Js("RF18539007547034")

  lemma StripWhitespaceFreePrefix(p: JsString, s: JsString)
    requires NoWhitespace(p)
    ensures Strip(p + s) == p + Strip(s)
  {
    StripAppend(p, s);
    StripKeepsWhitespaceFree(p);
  }

  lemma StripWhitespacePrefix(w: JsString, s: JsString)
    requires AllWhitespace(w)
    ensures Strip(w + s) == Strip(s)
  {
    StripAppend(w, s);
    StripErasesWhitespace(w);
  }

  /** The digits 3, 0, 8, 0, 8 denote 30808. */
  lemma Value30808()
    ensures DecimalValue(Js("30808")) == 30808
  {
    var field := Js("30808");
    assert DecimalValue(field[..1]) == 3;
    assert DecimalValue(field[..2]) == 30 by { assert field[..2][..1] == field[..1]; }
    assert DecimalValue(field[..3]) == 308 by { assert field[..3][..2] == field[..2]; }
    assert DecimalValue(field[..4]) == 3080 by { assert field[..4][..3] == field[..3]; }
    assert field[..4] == field[..|field| - 1];
  }

  /** A group followed by whitespace: stripping keeps the group and drops the
      whitespace. */
  lemma StripGroup(a: JsString, w: JsString, s: JsString)
    requires NoWhitespace(a) && AllWhitespace(w)
    ensures Strip(a + w + s) == a + Strip(s)
  {
    assert a + w + s == a + (w + s);
    StripWhitespaceFreePrefix(a, w + s);
    StripWhitespacePrefix(w, s);
  }

  /** Stripping an IBAN written in groups: the groups before `tail` are joined. */
  lemma StripGroups(a: JsString, w1: JsString, b: JsString, w2: JsString, c: JsString, tail: JsString)
    requires NoWhitespace(a) && NoWhitespace(b) && NoWhitespace(c)
    requires AllWhitespace(w1) && AllWhitespace(w2)
    ensures Strip(a + w1 + b + w2 + c + tail) == a + b + c + Strip(tail)
  {
    var rest := b + w2 + (c + tail);
    assert a + w1 + b + w2 + c + tail == a + w1 + rest;
    StripGroup(a, w1, rest);
    StripGroup(b, w2, c + tail);
    StripWhitespaceFreePrefix(c, tail);
  }

  /** An IBAN written as a four-character group, whitespace, and then groups
      holding the next five characters has those five as its identifier field. */
  lemma GroupedIidField(a: JsString, w1: JsString, b: JsString, w2: JsString, c: JsString, tail: JsString)
    requires NoWhitespace(a) && NoWhitespace(b) && NoWhitespace(c)
    requires AllWhitespace(w1) && AllWhitespace(w2)
    requires |a| == 4 && |b| + |c| == 5
    ensures |Strip(a + w1 + b + w2 + c + tail)| >= 9
    ensures Strip(a + w1 + b + w2 + c + tail)[4..9] == b + c
  {
    StripGroups(a, w1, b, w2, c, tail);
    assert (a + b + c + Strip(tail))[4..9] == b + c;
  }

  lemma QrIbanGroupsClean()
    ensures NoWhitespace(Js("CH45")) && NoWhitespace(Js("3080")) && NoWhitespace(Js("8")) && AllWhitespace(Js(" "))
    ensures Js("3080") + Js("8") == Js("30808")
  {
  }

  /** Removing the whitespace of CH45 3080 8001 2345 6789 0 puts 30808 at offset 4. */
  lemma QrIbanField()
    ensures |Strip(QrIbanText)| >= 9 && Strip(QrIbanText)[4..9] == Js("30808")
  {
    QrIbanGroupsClean();
    GroupedIidField(Js("CH45"), Js(" "), Js("3080"), Js(" "), Js("8"), Js("001 2345 6789 0"));
  }

  /** CH45 3080 8001 2345 6789 0 is a QR-IBAN: its identifier 30808 is in range. */
  lemma QrIbanExample()
    ensures IsQrIban(QrIbanText)
  {
    QrIbanField();
    Value30808();
    var field := Strip(QrIbanText)[4..9];
    assert AllDigits(field) && DecimalValue(field) == 30808;
    assert HasQrIid(QrIbanText);
  }

  /** The digits 0, 0, 7, 6, 2 denote 762. */
  lemma Value00762()
    ensures DecimalValue(Js("00762")) == 762
  {
    var field := Js("00762");
    assert DecimalValue(field[..1]) == 0;
    assert DecimalValue(field[..2]) == 0 by { assert field[..2][..1] == field[..1]; }
    assert DecimalValue(field[..3]) == 7 by { assert field[..3][..2] == field[..2]; }
    assert DecimalValue(field[..4]) == 76 by { assert field[..4][..3] == field[..3]; }
    assert field[..4] == field[..|field| - 1];
  }

  lemma RegularIbanGroupsClean()
    ensures NoWhitespace(Js("CH93")) && NoWhitespace(Js("0076")) && NoWhitespace(Js("2")) && AllWhitespace(Js(" "))
    ensures Js("0076") + Js("2") == Js("00762")
  {
  }

  /** Removing the whitespace of CH93 0076 2011 6238 5295 7 puts 00762 at offset 4. */
  lemma RegularIbanField()
    ensures |Strip(RegularIbanText)| >= 9 && Strip(RegularIbanText)[4..9] == Js("00762")
  {
    RegularIbanGroupsClean();
    GroupedIidField(Js("CH93"), Js(" "), Js("0076"), Js(" "), Js("2"), Js("011 6238 5295 7"));
  }

  /** CH93 0076 2011 6238 5295 7 is a regular IBAN: its identifier 00762 is out of range. */
  lemma RegularIbanExample()
    ensures !IsQrIban(RegularIbanText)
  {
    RegularIbanField();
    Value00762();
    var field := Strip(RegularIbanText)[4..9];
    assert DecimalValue(field) == 762;
    assert !HasQrIid(RegularIbanText);
  }

  /** QR-IBAN without a reference: the reference derived from the document name. */
  lemma QrIbanWithoutReference(referenceCode: JsString -> JsString)
    ensures DecideReference(QrIbanText, Some([]), Js("SINV-0001"), referenceCode)
         == Success(referenceCode(Js("SINV-0001")))
  {
    QrIbanExample();
  }

  /** The example references contain no whitespace, so stripping keeps them. */
  lemma QrrTextIsClean()
    ensures Strip(QrrText) == QrrText && IsQrrShape(QrrText)
  {
    assert AllDigits(QrrText);
    StripKeepsWhitespaceFree(QrrText);
  }

  /** "RF" followed by 3 to 23 digits is SCOR-shaped and free of whitespace. */
  lemma RfThenDigits(rf: JsString, digits: JsString)
    requires |rf| == 2 && IsLetterR(rf[0]) && IsLetterF(rf[1])
    requires AllDigits(digits) && 3 <= |digits| <= 23
    ensures IsScorShape(rf + digits) && NoWhitespace(rf + digits)
  {
    var s := rf + digits;
    forall i | 2 <= i < |s| ensures IsDigit(s[i]) {
      assert s[i] == digits[i - 2];
    }
  }

  lemma ScorTextIsClean()
    ensures Strip(ScorText) == ScorText && IsScorShape(ScorText)
  {
    var rf, digits := Js("RF"), Js("18539007547034");
    assert ScorText == rf + digits;
    assert AllDigits(digits);
    RfThenDigits(rf, digits);
    StripKeepsWhitespaceFree(ScorText);
  }

  lemma MalformedTextIsClean()
    ensures Strip(Js("12345")) == Js("12345") && !IsScorShape(Js("12345"))
  {
    assert NoWhitespace(Js("12345"));
    StripKeepsWhitespaceFree(Js("12345"));
  }

  /** QR-IBAN with a 27-digit reference: that reference, unchanged. */
  lemma QrIbanWithQrrReference(referenceCode: JsString -> JsString)
    ensures DecideReference(QrIbanText, Some(QrrText), Js("SINV-0001"), referenceCode) == Success(QrrText)
  {
    QrIbanExample();
    QrrTextIsClean();
  }

  /** Regular IBAN with a SCOR reference: that reference, unchanged. */
  lemma RegularIbanWithScorReference(referenceCode: JsString -> JsString)
    ensures DecideReference(RegularIbanText, Some(ScorText), Js("SINV-0001"), referenceCode) == Success(ScorText)
  {
    RegularIbanExample();
    ScorTextIsClean();
  }

  /** Regular IBAN without a reference: the empty reference (NON). */
  lemma RegularIbanWithoutReference(referenceCode: JsString -> JsString)
    ensures DecideReference(RegularIbanText, None, Js("SINV-0001"), referenceCode) == Success([])
  {
    RegularIbanExample();
  }

  /** Regular IBAN with the reference 12345: rejected, showing 12345. */
  lemma RegularIbanWithMalformedReference(referenceCode: JsString -> JsString)
    ensures DecideReference(RegularIbanText, Some(Js("12345")), Js("SINV-0001"), referenceCode)
         == Failure(InvalidReferenceFormat(Js("12345")))
  {
    RegularIbanExample();
    MalformedTextIsClean();
  }

  /** QR-IBAN with a SCOR reference: replaced by the derived reference. */
  lemma QrIbanWithScorReference(referenceCode: JsString -> JsString)
    ensures DecideReference(QrIbanText, Some(ScorText), Js("SINV-0001"), referenceCode)
         == Success(referenceCode(Js("SINV-0001")))
  {
    QrIbanExample();
    ScorTextIsClean();
    assert !IsQrrShape(ScorText);
  }

  /** QR-IBAN with the reference 12345: replaced by the derived reference. */
  lemma QrIbanWithMalformedReference(referenceCode: JsString -> JsString)
    ensures DecideReference(QrIbanText, Some(Js("12345")), Js("SINV-0001"), referenceCode)
         == Success(referenceCode(Js("SINV-0001")))
  {
    QrIbanExample();
    MalformedTextIsClean();
    assert !IsQrrShape(Js("12345"));
  }

  /** Regular IBAN with a 27-digit reference: rejected, since a QRR reference
      belongs to a QR-IBAN only. */
  lemma RegularIbanWithQrrReference(referenceCode: JsString -> JsString)
    ensures DecideReference(RegularIbanText, Some(QrrText), Js("SINV-0001"), referenceCode)
         == Failure(InvalidReferenceFormat(QrrText))
  {
    RegularIbanExample();
    QrrTextIsClean();
    ShapesExclusive(QrrText);
  }
}
