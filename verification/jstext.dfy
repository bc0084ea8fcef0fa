/** The few pieces of JavaScript's string and number built-ins that the QR-bill
    code relies on: the `\s` and `\d` character classes, `replace(/\s/g, "")`,
    `substring` and `parseInt(_, 10)`. A JavaScript string is a sequence of UTF-16
    code units, and every index and length here counts code units. */
module JsText {
  import opened Wrappers

  /** One UTF-16 code unit. */
  newtype CodeUnit = x: int | 0 <= x < 0x1_0000

  type JsString = seq<CodeUnit>

  /** Converts a Dafny string literal whose characters all lie in the Basic
      Multilingual Plane into the code units JavaScript stores for it. */
  function Js(s: string): (r: JsString)
    requires forall i :: 0 <= i < |s| ==> s[i] as int < 0x1_0000
    ensures |r| == |s|
    ensures forall i :: 0 <= i < |s| ==> r[i] as int == s[i] as int
  {
    seq(|s|, i requires 0 <= i < |s| => s[i] as int as CodeUnit)
  }

  /** The regular-expression class `\s`, which is also the set of code units that
      `parseInt` skips: ECMAScript's WhiteSpace (tab, vertical tab, form feed,
      space, no-break space, byte order mark and every Unicode space separator)
      and LineTerminator (line feed, carriage return, U+2028, U+2029). */
  predicate IsWhitespace(c: CodeUnit) {
    || (0x09 <= c <= 0x0D)
    || c == 0x20
    || c == 0xA0
    || c == 0x1680
    || (0x2000 <= c <= 0x200A)
    || c == 0x2028
    || c == 0x2029
    || c == 0x202F
    || c == 0x205F
    || c == 0x3000
    || c == 0xFEFF
  }

  /** The class `\d`: the ASCII digits '0'..'9' only. */
  predicate IsDigit(c: CodeUnit) {
    0x30 <= c <= 0x39
  }

  predicate AllDigits(s: JsString) {
    forall i :: 0 <= i < |s| ==> IsDigit(s[i])
  }

  predicate NoWhitespace(s: JsString) {
    forall i :: 0 <= i < |s| ==> !IsWhitespace(s[i])
  }

  predicate AllWhitespace(s: JsString) {
    forall i :: 0 <= i < |s| ==> IsWhitespace(s[i])
  }

  function Min(a: int, b: int): int {
    if a <= b then a else b
  }

  /** `s.replace(/\s/g, "")`: every whitespace code unit removed, all others kept
      in order. */
  function Strip(s: JsString): (r: JsString)
    ensures |r| <= |s|
    ensures NoWhitespace(r)
  {
    if s == [] then []
    else if IsWhitespace(s[0]) then Strip(s[1..])
    else [s[0]] + Strip(s[1..])
  }

  /** Removing whitespace keeps every other code unit as often as it occurs. */
  lemma {:induction false} StripKeepsOtherCodeUnits(s: JsString, c: CodeUnit)
    ensures multiset(Strip(s))[c] == if IsWhitespace(c) then 0 else multiset(s)[c]
    decreases |s|
  {
    if s != [] {
      assert s == [s[0]] + s[1..];
      StripKeepsOtherCodeUnits(s[1..], c);
    }
  }

  /** Removing whitespace distributes over concatenation. */
  lemma {:induction false} StripAppend(a: JsString, b: JsString)
    ensures Strip(a + b) == Strip(a) + Strip(b)
    decreases |a|
  {
    if a == [] {
      assert a + b == b;
    } else {
      assert (a + b)[0] == a[0];
      assert (a + b)[1..] == a[1..] + b;
      StripAppend(a[1..], b);
    }
  }

  /** A string without whitespace is left as it is. */
  lemma {:induction false} StripKeepsWhitespaceFree(s: JsString)
    requires NoWhitespace(s)
    ensures Strip(s) == s
    decreases |s|
  {
    if s != [] {
      StripKeepsWhitespaceFree(s[1..]);
    }
  }

  /** A string made only of whitespace disappears. */
  lemma {:induction false} StripErasesWhitespace(w: JsString)
    requires AllWhitespace(w)
    ensures Strip(w) == []
    decreases |w|
  {
    if w != [] {
      StripErasesWhitespace(w[1..]);
    }
  }

  /** Stripping twice is stripping once. */
  lemma StripIdempotent(s: JsString)
    ensures Strip(Strip(s)) == Strip(s)
  {
    StripKeepsWhitespaceFree(Strip(s));
  }

  /** Inserting whitespace anywhere does not change the stripped string. */
  lemma StripIgnoresInsertedWhitespace(s: JsString, i: nat, w: JsString)
    requires i <= |s|
    requires AllWhitespace(w)
    ensures Strip(s[..i] + w + s[i..]) == Strip(s)
  {
    var pre, post := s[..i], s[i..];
    StripAppend(pre, w);
    StripErasesWhitespace(w);
    assert Strip(pre + w) == Strip(pre);
    StripAppend(pre + w, post);
    assert Strip(pre + w + post) == Strip(pre) + Strip(post);
    StripAppend(pre, post);
    assert pre + post == s;
  }

  /** `s.substring(start, end)` for non-negative integer arguments: both are
      clamped to the length, and they are swapped when `start` exceeds `end`. */
  function Substring(s: JsString, start: nat, end: nat): (r: JsString)
    ensures start <= end ==> |r| == Min(end, |s|) - Min(start, |s|)
    ensures start <= end <= |s| ==> r == s[start..end]
    ensures start <= |s| <= end ==> r == s[start..]
    ensures |s| <= start && |s| <= end ==> r == []
    ensures |r| <= |s|
  {
    var a := Min(start, |s|);
    var b := Min(end, |s|);
    if a <= b then s[a..b] else s[b..a]
  }

  /** `substring` does not care in which order its bounds come. */
  lemma SubstringSymmetric(s: JsString, start: nat, end: nat)
    ensures Substring(s, start, end) == Substring(s, end, start)
  {
  }

  /** `s.trimStart()` for the whitespace `parseInt` skips. */
  function TrimStart(s: JsString): (r: JsString)
    ensures |r| <= |s|
    ensures r == s[|s| - |r|..]
    ensures AllWhitespace(s[..|s| - |r|])
    ensures r == [] || !IsWhitespace(r[0])
  {
    if s != [] && IsWhitespace(s[0]) then
      var r := TrimStart(s[1..]);
      assert s[..|s| - |r|] == [s[0]] + s[1..][..|s| - 1 - |r|];
      r
    else s
  }

  /** The longest prefix of `s` made of decimal digits. */
  function DigitPrefix(s: JsString): (r: JsString)
    ensures r <= s
    ensures AllDigits(r)
    ensures |r| < |s| ==> !IsDigit(s[|r|])
  {
    if s == [] || !IsDigit(s[0]) then [] else [s[0]] + DigitPrefix(s[1..])
  }

  function Pow10(n: nat): (p: nat)
    ensures p >= 1
  {
    if n == 0 then 1 else 10 * Pow10(n - 1)
  }

  /** The number a string of decimal digits denotes, most significant first. */
  function DecimalValue(d: JsString): (v: nat)
    requires AllDigits(d)
    ensures v < Pow10(|d|)
    ensures |d| > 0 && d[0] != 0x30 ==> v >= Pow10(|d| - 1)
  {
    if d == [] then 0
    else DecimalValue(d[..|d| - 1]) * 10 + (d[|d| - 1] - 0x30) as int
  }

  const PlusSign: CodeUnit := 0x2B
  const MinusSign: CodeUnit := 0x2D

  /** The value of the run of digits at the front of `u`, or NaN (`None`) when
      `u` does not start with a digit. */
  function ReadDigits(u: JsString): (r: Option<int>)
    ensures r.Some? <==> u != [] && IsDigit(u[0])
    ensures r.Some? ==> 0 <= r.value < Pow10(|u|)
    ensures AllDigits(u) && u != [] ==> r == Some(DecimalValue(u))
  {
    var digits := DigitPrefix(u);
    if digits == [] then None
    else
      DigitPrefixOfDigits(u);
      Pow10Monotone(|digits|, |u|);
      Some(DecimalValue(digits))
  }

  /** One optional sign, then the digit run. */
  function ReadSigned(t: JsString): (r: Option<int>)
    ensures r.Some? <==> || (t != [] && IsDigit(t[0]))
                         || (|t| >= 2 && (t[0] == MinusSign || t[0] == PlusSign) && IsDigit(t[1]))
    ensures r.Some? ==> -(Pow10(|t|) as int) < r.value < Pow10(|t|)
  {
    if t != [] && t[0] == MinusSign then
      match ReadDigits(t[1..])
      case None => None
      case Some(v) => Some(-v)
    else if t != [] && t[0] == PlusSign then ReadDigits(t[1..])
    else ReadDigits(t)
  }

  /** `parseInt(s, 10)`, with `None` standing for NaN: leading whitespace is
      skipped, one optional sign is read, then the longest run of decimal digits;
      without at least one digit the result is NaN. */
  function ParseInt(s: JsString): (r: Option<int>)
    ensures AllWhitespace(s) ==> r == None
    ensures AllDigits(s) && s != [] ==> r == Some(DecimalValue(s))
    ensures s != [] && !IsWhitespace(s[0]) && !IsDigit(s[0]) && s[0] != PlusSign && s[0] != MinusSign
      ==> r == None
    ensures r.Some? ==> -(Pow10(|s|) as int) < r.value < Pow10(|s|)
  {
    var t := TrimStart(s);
    Pow10Monotone(|t|, |s|);
    ReadSigned(t)
  }

  /** On an all-digit string the digit run is the whole string. */
  lemma DigitPrefixOfDigits(s: JsString)
    ensures AllDigits(s) ==> DigitPrefix(s) == s
  {
  }

  lemma AllDigitsPrepend(c: CodeUnit, d: JsString)
    requires IsDigit(c) && AllDigits(d)
    ensures AllDigits([c] + d)
  {
    var e := [c] + d;
    forall i | 0 <= i < |e| ensures IsDigit(e[i]) {
      if i > 0 { assert e[i] == d[i - 1]; }
    }
  }

  /** Appending a digit to a number that already had `k` shifted in front. */
  lemma ShiftedDigit(k: int, p: int, v: int, last: int)
    ensures (k * p + v) * 10 + last == k * (10 * p) + (v * 10 + last)
  {
  }

  /** The most-significant-first expansion: a leading digit `c` in front of `d`
      contributes its digit value times 10^|d|. */
  lemma {:induction false} DecimalValueLeadingDigit(c: CodeUnit, d: JsString)
    requires IsDigit(c) && AllDigits(d)
    ensures AllDigits([c] + d)
    ensures DecimalValue([c] + d) == (c - 0x30) as int * Pow10(|d|) + DecimalValue(d)
    decreases |d|
  {
    AllDigitsPrepend(c, d);
    var e := [c] + d;
    if d == [] {
      assert e[..|e| - 1] == [];
    } else {
      var front := d[..|d| - 1];
      assert e[..|e| - 1] == [c] + front;
      assert e[|e| - 1] == d[|d| - 1];
      DecimalValueLeadingDigit(c, front);
      ShiftedDigit((c - 0x30) as int, Pow10(|front|), DecimalValue(front), (d[|d| - 1] - 0x30) as int);
    }
  }

  lemma {:induction false} Pow10Monotone(m: nat, n: nat)
    requires m <= n
    ensures Pow10(m) <= Pow10(n)
    decreases n
  {
    if m < n {
      Pow10Monotone(m, n - 1);
    }
  }

  /** The digit run of `p + rest`, where `p` is all digits and `rest` does not
      start with one, is `p`. */
  lemma {:induction false} DigitPrefixStopsAtNonDigit(p: JsString, rest: JsString)
    requires AllDigits(p)
    requires rest == [] || !IsDigit(rest[0])
    ensures DigitPrefix(p + rest) == p
    decreases |p|
  {
    if p == [] {
      assert p + rest == rest;
    } else {
      assert (p + rest)[0] == p[0];
      assert (p + rest)[1..] == p[1..] + rest;
      DigitPrefixStopsAtNonDigit(p[1..], rest);
    }
  }

  lemma TrimStartKeeps(s: JsString)
    requires s != [] && !IsWhitespace(s[0])
    ensures TrimStart(s) == s
  {
  }

  /** The digit run of `p + rest` is read as the value of `p`. */
  lemma ReadDigitsOfRun(p: JsString, rest: JsString)
    requires p != [] && AllDigits(p)
    requires rest == [] || !IsDigit(rest[0])
    ensures ReadDigits(p + rest) == Some(DecimalValue(p))
  {
    DigitPrefixStopsAtNonDigit(p, rest);
  }

  /** `parseInt` reads the longest run of digits and ignores what follows it:
      "3000X" reads as 3000. */
  lemma ParseIntReadsLongestPrefix(p: JsString, rest: JsString)
    requires p != [] && AllDigits(p)
    requires rest == [] || !IsDigit(rest[0])
    ensures ParseInt(p + rest) == Some(DecimalValue(p))
  {
    var s := p + rest;
    assert s[0] == p[0];
    TrimStartKeeps(s);
    ReadDigitsOfRun(p, rest);
    assert ReadSigned(s) == ReadDigits(s);
  }

  /** Without leading whitespace, `parseInt` goes straight to the sign. */
  lemma ParseIntWithoutLeadingWhitespace(t: JsString)
    requires t != [] && !IsWhitespace(t[0])
    ensures ParseInt(t) == ReadSigned(t)
  {
    TrimStartKeeps(t);
  }

  lemma ReadSignedMinus(u: JsString)
    ensures ReadSigned([MinusSign] + u) == match ReadDigits(u) case None => None case Some(v) => Some(-v)
  {
    assert ([MinusSign] + u)[1..] == u;
  }

  lemma ReadSignedPlus(u: JsString)
    ensures ReadSigned([PlusSign] + u) == ReadDigits(u)
  {
    assert ([PlusSign] + u)[1..] == u;
  }

  /** After a minus sign `parseInt` reads the digits and negates them. */
  lemma ParseIntAfterMinus(u: JsString, v: int)
    requires ReadDigits(u) == Some(v)
    ensures ParseInt([MinusSign] + u) == Some(-v)
  {
    ReadSignedMinus(u);
    ParseIntWithoutLeadingWhitespace([MinusSign] + u);
  }

  /** After a plus sign `parseInt` reads the digits as they are, or gives NaN. */
  lemma ParseIntAfterPlus(u: JsString)
    ensures ParseInt([PlusSign] + u) == ReadDigits(u)
  {
    ReadSignedPlus(u);
    ParseIntWithoutLeadingWhitespace([PlusSign] + u);
  }

  /** One leading minus is read before the digits: "-30808" reads as -30808. */
  lemma ParseIntReadsMinus(p: JsString, rest: JsString)
    requires p != [] && AllDigits(p)
    requires rest == [] || !IsDigit(rest[0])
    ensures ParseInt([MinusSign] + (p + rest)).Some?
    ensures ParseInt([MinusSign] + (p + rest)).value == -(DecimalValue(p) as int)
  {
    ReadMinusRun(p, rest, DecimalValue(p));
  }

  lemma ReadMinusRun(p: JsString, rest: JsString, v: int)
    requires p != [] && AllDigits(p)
    requires rest == [] || !IsDigit(rest[0])
    requires v == DecimalValue(p)
    ensures ParseInt([MinusSign] + (p + rest)) == Some(-v)
  {
    ReadDigitsOfRun(p, rest);
    ParseIntAfterMinus(p + rest, v);
  }

  /** One leading plus is read before the digits: "+3000" reads as 3000. */
  lemma ParseIntReadsPlus(p: JsString, rest: JsString)
    requires p != [] && AllDigits(p)
    requires rest == [] || !IsDigit(rest[0])
    ensures ParseInt([PlusSign] + (p + rest)) == Some(DecimalValue(p))
  {
    ReadDigitsOfRun(p, rest);
    ParseIntAfterPlus(p + rest);
  }

  /** A sign with no digit right after it gives NaN. */
  lemma ParseIntSignWithoutDigits(rest: JsString)
    requires rest == [] || !IsDigit(rest[0])
    ensures ParseInt([MinusSign] + rest) == None
    ensures ParseInt([PlusSign] + rest) == None
  {
    ReadSignedMinus(rest);
    ParseIntWithoutLeadingWhitespace([MinusSign] + rest);
    ParseIntAfterPlus(rest);
  }

  /** Whitespace at the front is removed as far as it goes. */
  lemma {:induction false} TrimStartSkipsWhitespace(w: JsString, s: JsString)
    requires AllWhitespace(w)
    ensures TrimStart(w + s) == TrimStart(s)
    decreases |w|
  {
    if w == [] {
      assert w + s == s;
    } else {
      assert (w + s)[0] == w[0];
      assert (w + s)[1..] == w[1..] + s;
      TrimStartSkipsWhitespace(w[1..], s);
    }
  }

  /** Leading whitespace never changes what `parseInt` reads. */
  lemma ParseIntSkipsLeadingWhitespace(w: JsString, s: JsString)
    requires AllWhitespace(w)
    ensures ParseInt(w + s) == ParseInt(s)
  {
    TrimStartSkipsWhitespace(w, s);
  }

  /** After a sign, fewer than |t| digits remain, so the value stays below
      10^(|t|-1). */
  lemma ReadSignedNarrow(t: JsString)
    requires t != [] && (t[0] == PlusSign || t[0] == MinusSign)
    ensures ReadSigned(t).Some? ==> ReadSigned(t).value < Pow10(|t| - 1)
  {
    var u := t[1..];
    assert t == [t[0]] + u && |u| == |t| - 1;
    if t[0] == MinusSign {
      ReadSignedMinus(u);
    } else {
      ReadSignedPlus(u);
    }
  }

  /** A digit run that stops before the end of `u` is worth less than
      10^(|u|-1). */
  lemma ShortDigitRunIsNarrow(u: JsString)
    requires |DigitPrefix(u)| < |u|
    ensures ReadDigits(u).Some? ==> ReadDigits(u).value < Pow10(|u| - 1)
  {
    var digits := DigitPrefix(u);
    if digits != [] {
      assert ReadDigits(u) == Some(DecimalValue(digits));
      Pow10Monotone(|digits|, |u| - 1);
    }
  }

  /** A digit run worth at least 10^(|u|-1) fills the whole of `u`. */
  lemma ReadDigitsFullWidth(u: JsString)
    requires ReadDigits(u).Some? && ReadDigits(u).value >= Pow10(|u| - 1)
    ensures AllDigits(u)
  {
    if |DigitPrefix(u)| < |u| {
      ShortDigitRunIsNarrow(u);
      assert false;
    }
    assert DigitPrefix(u) == u;
  }

  /** A value `parseInt` reads from a string with no leading whitespace can reach
      10^(|s|-1) only when every code unit of `s` is a digit: a sign, or a
      non-digit that ends the run early, leaves fewer digits than that. */
  lemma ParseIntReachesFullWidth(s: JsString)
    requires s != [] && !IsWhitespace(s[0])
    requires ParseInt(s).Some? && ParseInt(s).value >= Pow10(|s| - 1)
    ensures AllDigits(s)
    ensures ParseInt(s) == Some(DecimalValue(s))
  {
    if s[0] == PlusSign || s[0] == MinusSign {
      ParseIntWithoutLeadingWhitespace(s);
      ReadSignedNarrow(s);
      assert false;
    } else {
      ParseIntWithoutLeadingWhitespace(s);
      assert ParseInt(s) == ReadDigits(s);
      ReadDigitsFullWidth(s);
    }
  }
}
