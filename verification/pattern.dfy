/** The fragment of JavaScript regular expressions that the QR-bill code uses:
    an anchored pattern `^t1 t2 ... tn$` in which every term is a character class
    repeated between a lower and an upper bound (`\d{27}`, `[A-Z0-9]{1,21}`, a
    literal letter as a class of its own). Matching is defined as the existence
    of a split of the input, one piece per term. */
module Pattern {
  import opened JsText

  datatype Term = Term(cls: CodeUnit -> bool, min: nat, max: nat)

  type Regex = seq<Term>

  predicate AllIn(cls: CodeUnit -> bool, s: JsString) {
    forall i :: 0 <= i < |s| ==> cls(s[i])
  }

  /** The fewest code units a match of `p` can span. */
  function MinLength(p: Regex): nat {
    if p == [] then 0 else p[0].min + MinLength(p[1..])
  }

  /** The most code units a match of `p` can span. */
  function MaxLength(p: Regex): nat {
    if p == [] then 0 else p[0].max + MaxLength(p[1..])
  }

  /** `/^p$/.test(s)` for the pattern `p`. A match spans between the pattern's
      least and greatest length. */
  ghost predicate FullMatch(p: Regex, s: JsString): (b: bool)
    ensures b ==> MinLength(p) <= |s| <= MaxLength(p)
    decreases |p|
  {
    if p == [] then s == []
    else exists k :: p[0].min <= k <= p[0].max && k <= |s| && AllIn(p[0].cls, s[..k]) && FullMatch(p[1..], s[k..])
  }

  /** A term repeated exactly `n` times consumes exactly the first `n` code units. */
  lemma FullMatchFixed(cls: CodeUnit -> bool, n: nat, p: Regex, s: JsString)
    ensures FullMatch([Term(cls, n, n)] + p, s) <==> n <= |s| && AllIn(cls, s[..n]) && FullMatch(p, s[n..])
  {
    var q := [Term(cls, n, n)] + p;
    assert q[0] == Term(cls, n, n) && q[1..] == p;
    if FullMatch(q, s) {
      var k :| q[0].min <= k <= q[0].max && k <= |s| && AllIn(q[0].cls, s[..k]) && FullMatch(q[1..], s[k..]);
      assert k == n;
    }
  }

  /** The last term of a pattern consumes the whole rest of the input. */
  lemma FullMatchLast(t: Term, s: JsString)
    ensures FullMatch([t], s) <==> t.min <= |s| <= t.max && AllIn(t.cls, s)
  {
    var q := [t];
    assert q[0] == t && q[1..] == [];
    if FullMatch(q, s) {
      var k :| t.min <= k <= t.max && k <= |s| && AllIn(t.cls, s[..k]) && FullMatch(q[1..], s[k..]);
      assert k == |s| && s[..k] == s;
    }
    if t.min <= |s| <= t.max && AllIn(t.cls, s) {
      assert s[..|s|] == s && s[|s|..] == [];
      assert FullMatch(q[1..], s[|s|..]);
    }
  }
}
