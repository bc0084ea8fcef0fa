/** The two reference shapes the QR-bill code tests with regular expressions,
    written as explicit character-class predicates and proved equal to the
    regular expressions' own meaning.
    - QRR (the structured reference of a QR-IBAN): `/^\d{27}$/`.
    - SCOR (the creditor reference of ISO 11649): `/^RF\d{2}[A-Z0-9]{1,21}$/i`.
    The `i` flag makes `R`, `F` and `[A-Z]` accept the ASCII lower-case letters
    too; without the `u` flag JavaScript never folds a non-ASCII code unit onto
    an ASCII letter, so nothing else is admitted. Neither shape checks the
    check digits of its standard. */
module ReferenceShape {
  import opened JsText
  import opened Pattern

  const QrrLength := 27
  const ScorMinLength := 5
  const ScorMaxLength := 25

  predicate IsLetterR(c: CodeUnit) {
    c == 0x52 || c == 0x72
  }

  predicate IsLetterF(c: CodeUnit) {
    c == 0x46 || c == 0x66
  }

  /** `[A-Z0-9]` under the `i` flag. */
  predicate IsAsciiAlnum(c: CodeUnit) {
    IsDigit(c) || (0x41 <= c <= 0x5A) || (0x61 <= c <= 0x7A)
  }

  /** Exactly 27 decimal digits; such a reference holds no whitespace, so the
      stripping before the test leaves it as typed. */
  predicate IsQrrShape(s: JsString): (b: bool)
    ensures b ==> s != [] && NoWhitespace(s)
  {
    |s| == QrrLength && AllDigits(s)
  }

  /** `R`, `F` (either case), two decimal digits, then 1 to 21 ASCII letters or
      digits; such a reference holds no whitespace either. */
  predicate IsScorShape(s: JsString): (b: bool)
    ensures b ==> s != [] && NoWhitespace(s)
  {
    && ScorMinLength <= |s| <= ScorMaxLength
    && IsLetterR(s[0])
    && IsLetterF(s[1])
    && IsDigit(s[2])
    && IsDigit(s[3])
    && forall i :: 4 <= i < |s| ==> IsAsciiAlnum(s[i])
  }

  /** `/^\d{27}$/` */
  const QrrRegex: Regex := [Term(IsDigit, 27, 27)]

  /** `/^RF\d{2}[A-Z0-9]{1,21}$/i` */
  const ScorRegex: Regex :=
    [Term(IsLetterR, 1, 1), Term(IsLetterF, 1, 1), Term(IsDigit, 2, 2), Term(IsAsciiAlnum, 1, 21)]

  lemma QrrRegexAgrees(s: JsString)
    ensures FullMatch(QrrRegex, s) <==> IsQrrShape(s)
  {
    FullMatchLast(Term(IsDigit, 27, 27), s);
  }

  lemma ScorRegexAgrees(s: JsString)
    ensures FullMatch(ScorRegex, s) <==> IsScorShape(s)
  {
    var alnum := [Term(IsAsciiAlnum, 1, 21)];
    var digitsThenAlnum := [Term(IsDigit, 2, 2)] + alnum;
    var fThenRest := [Term(IsLetterF, 1, 1)] + digitsThenAlnum;
    assert ScorRegex == [Term(IsLetterR, 1, 1)] + fThenRest;
    FullMatchFixed(IsLetterR, 1, fThenRest, s);
    if 1 <= |s| {
      FullMatchFixed(IsLetterF, 1, digitsThenAlnum, s[1..]);
      if 2 <= |s| {
        assert s[1..][1..] == s[2..];
        FullMatchFixed(IsDigit, 2, alnum, s[2..]);
        if 4 <= |s| {
          assert s[2..][2..] == s[4..];
          FullMatchLast(Term(IsAsciiAlnum, 1, 21), s[4..]);
          assert AllIn(IsAsciiAlnum, s[4..]) <==> forall i :: 4 <= i < |s| ==> IsAsciiAlnum(s[i]) by {
            if AllIn(IsAsciiAlnum, s[4..]) {
              forall i | 4 <= i < |s| ensures IsAsciiAlnum(s[i]) {
                assert s[4..][i - 4] == s[i];
              }
            }
          }
          assert AllIn(IsDigit, s[2..][..2]) <==> IsDigit(s[2]) && IsDigit(s[3]) by {
            assert s[2..][..2] == [s[2], s[3]];
          }
          assert AllIn(IsLetterF, s[1..][..1]) <==> IsLetterF(s[1]) by {
            assert s[1..][..1] == [s[1]];
          }
          assert AllIn(IsLetterR, s[..1]) <==> IsLetterR(s[0]) by {
            assert s[..1] == [s[0]];
          }
        } else {
          FullMatchFixed(IsDigit, 2, alnum, s[2..]);
        }
      }
    }
  }

  /** No string has both shapes: at most one regime can apply to a given
      reference. */
  lemma ShapesExclusive(s: JsString)
    ensures !(IsQrrShape(s) && IsScorShape(s))
  {
  }
}
