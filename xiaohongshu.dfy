/**
 * The Xiaohongshu follower pattern, searched with `re.search`:
 *   <span class="count"[^>]*>(\d+)</span><span class="shows"[^>]*>粉丝</span>
 * stated as a SHAPE predicate and as a MATCHER, with proofs that the two agree.
 */
module XiaohongshuRegex {
  import opened Wrappers
  import opened Text
  import opened Patterns

  /** The literal pieces of the Xiaohongshu pattern, in the order they occur. */
  datatype XhsPattern = XhsPattern(open: string, middle: string, close: string)
  {
    /** What makes each `[^>]*` and `\d+` of the pattern stop at a single place. */
    predicate Forcing() {
      middle != [] && !IsDigit(middle[0]) && close != [] && close[0] == '>'
    }
  }

  function XiaohongshuFans(): XhsPattern {
    XhsPattern("<span class=\"count\"", "</span><span class=\"shows\"", ">粉丝</span>")
  }

  lemma {:induction false} XiaohongshuForcing()
    ensures XiaohongshuFans().Forcing()
  {
  }

  /** One way the Xiaohongshu pattern matches at `p`: the runs end at `x` and `y`, the group is s[x + 1..e]. */
  ghost predicate XiaohongshuShape(s: string, p: int, x: int, e: int, y: int, P: XhsPattern) {
    && LitAt(s, p, P.open)
    && RunThenLitShape(s, p + |P.open|, x, "", ">")
    && DigitsThenLitShape(s, x + 1, e, P.middle)
    && RunThenLitShape(s, e + |P.middle|, y, "", P.close)
  }

  /** The Xiaohongshu pattern matches at `p` and its group is s[m.start..m.end]. */
  ghost predicate XiaohongshuFinds(s: string, p: int, m: Span, P: XhsPattern) {
    exists y {:trigger XiaohongshuShape(s, p, m.start - 1, m.end, y, P)} ::
      XiaohongshuShape(s, p, m.start - 1, m.end, y, P)
  }

  lemma {:induction false} XiaohongshuFound(s: string, p: nat, P: XhsPattern, d: nat, e: nat, z: nat)
    requires LitAt(s, p, P.open) && d >= 1 && z >= |P.close|
    requires RunThenLitShape(s, p + |P.open|, d - 1, "", ">")
    requires DigitsThenLitShape(s, d, e, P.middle)
    requires RunThenLitShape(s, e + |P.middle|, z - |P.close|, "", P.close)
    ensures XiaohongshuFinds(s, p, Span(d, e), P)
  {
    assert XiaohongshuShape(s, p, d - 1, e, z - |P.close|, P);
  }

  /** Where the group of the Xiaohongshu pattern matched from `p` lies, if it matches there. */
  function XiaohongshuMatchAt(s: string, p: nat, P: XhsPattern): (r: Option<Span>)
    ensures r.Some? ==> r.value.start < r.value.end <= |s|
  {
    if !LitAt(s, p, P.open) then None
    else match RunThenLit(s, p + |P.open|, "", ">")
      case None => None
      case Some(d) =>
        match DigitsThenLit(s, d, P.middle)
        case None => None
        case Some(e) =>
          match RunThenLit(s, e + |P.middle|, "", P.close)
          case None => None
          case Some(z) => Some(Span(d, e))
  }

  lemma {:induction false} XiaohongshuMatchAtOf(s: string, p: nat, P: XhsPattern, d: nat, e: nat, z: nat)
    requires LitAt(s, p, P.open)
    requires RunThenLit(s, p + |P.open|, "", ">") == Some(d)
    requires DigitsThenLit(s, d, P.middle) == Some(e)
    requires RunThenLit(s, e + |P.middle|, "", P.close) == Some(z)
    ensures XiaohongshuMatchAt(s, p, P) == Some(Span(d, e))
  {
  }

  /** What the matcher reports is the group of a Xiaohongshu match at `p`. */
  lemma {:induction false} XiaohongshuMatchAtSound(s: string, p: nat, P: XhsPattern, m: Span)
    requires XiaohongshuMatchAt(s, p, P) == Some(m)
    ensures XiaohongshuFinds(s, p, m, P)
  {
    var d := RunThenLit(s, p + |P.open|, "", ">").value;
    var e := DigitsThenLit(s, d, P.middle).value;
    var z := RunThenLit(s, e + |P.middle|, "", P.close).value;
    RunThenLitSound(s, p + |P.open|, "", ">", d, d - 1);
    DigitsThenLitSound(s, d, P.middle, e);
    RunThenLitSound(s, e + |P.middle|, "", P.close, z, z - |P.close|);
    XiaohongshuFound(s, p, P, d, e, z);
  }

  /** Every way the pattern matches at `p` leads the matcher to the same group. */
  lemma {:induction false} XiaohongshuShapeForced(s: string, p: nat, x: int, e: int, y: int, P: XhsPattern)
    requires P.Forcing() && XiaohongshuShape(s, p, x, e, y, P)
    ensures XiaohongshuMatchAt(s, p, P) == Some(Span(x + 1, e))
  {
    RunThenLitForced(s, p + |P.open|, x, "", ">", x + 1);
    DigitsThenLitForced(s, x + 1, e, P.middle);
    RunThenLitForced(s, e + |P.middle|, y, "", P.close, y + |P.close|);
    XiaohongshuMatchAtOf(s, p, P, x + 1, e, y + |P.close|);
  }

  lemma {:induction false} XiaohongshuMatchAtComplete(s: string, p: nat, m: Span, P: XhsPattern)
    requires P.Forcing() && XiaohongshuFinds(s, p, m, P)
    ensures XiaohongshuMatchAt(s, p, P) == Some(m)
  {
    var y :| XiaohongshuShape(s, p, m.start - 1, m.end, y, P);
    XiaohongshuShapeForced(s, p, m.start - 1, m.end, y, P);
  }

  /** A match starts inside the text and its group is a run of digits. */
  lemma {:induction false} XiaohongshuFindsGroup(s: string, p: int, m: Span, P: XhsPattern)
    requires XiaohongshuFinds(s, p, m, P)
    ensures 0 <= p <= |s| && DigitsIn(s, m.start, m.end)
  {
    var y :| XiaohongshuShape(s, p, m.start - 1, m.end, y, P);
  }
}
