/**
 * The pieces of the Douyin follower pattern (compiled with `re.DOTALL`):
 *   <div[^>]*data-e2e="user-info-fans"[^>]*>.*?<div[^>]*>粉丝</div>
 *   .*?<div[^>]*>(\d+)</div>
 * the fans header, the label div and the number div, each with its shape,
 * the step that matches it at one index, and the search for the next one.
 */
module DouyinSteps {
  import opened Wrappers
  import opened Text
  import opened Patterns

  /** The literal pieces of the Douyin pattern. */
  datatype DouyinPattern = DouyinPattern(open: string, fansAttr: string, fansLabel: string, close: string)
  {
    /** What makes each `[^>]*` and `\d+` of the pattern stop at a single place. */
    predicate Forcing() {
      '>' !in fansAttr && fansLabel != [] && fansLabel[0] == '>' && close != [] && !IsDigit(close[0])
    }
  }

  function DouyinFans(): DouyinPattern {
    DouyinPattern("<div", "data-e2e=\"user-info-fans\"", ">粉丝</div>", "</div>")
  }

  lemma {:induction false} DouyinForcing()
    ensures DouyinFans().Forcing()
  {
  }

  /** `<div[^>]*data-e2e="user-info-fans"[^>]*>` at `p`, closed by the `>` at `g`. */
  ghost predicate DouyinHeadShape(s: string, p: int, x: int, g: int, P: DouyinPattern) {
    LitAt(s, p, P.open) && RunAroundLitShape(s, p + |P.open|, x, g, P.fansAttr)
  }

  /** `<div[^>]*>粉丝</div>` at `a`, its run ending at `x`. */
  ghost predicate LabelDivShape(s: string, a: int, x: int, P: DouyinPattern) {
    LitAt(s, a, P.open) && RunThenLitShape(s, a + |P.open|, x, "", P.fansLabel)
  }

  /** `<div[^>]*>(\d+)</div>` at `c`, its run ending at `x`; the group is s[x + 1..e]. */
  ghost predicate NumberDivShape(s: string, c: int, x: int, e: int, P: DouyinPattern) {
    && LitAt(s, c, P.open) && RunThenLitShape(s, c + |P.open|, x, "", ">")
    && DigitsThenLitShape(s, x + 1, e, P.close)
  }

  /** Where the label div starting at `a` ends, if one starts there. */
  function LabelDivAt(s: string, a: nat, P: DouyinPattern): (r: Option<nat>)
    ensures r.Some? ==> r.value <= |s|
  {
    if !LitAt(s, a, P.open) then None else RunThenLit(s, a + |P.open|, "", P.fansLabel)
  }

  lemma {:induction false} LabelDivForced(s: string, a: nat, x: int, P: DouyinPattern, k: nat)
    requires P.Forcing() && LabelDivShape(s, a, x, P) && k == x + |""| + |P.fansLabel|
    ensures LabelDivAt(s, a, P) == Some(k)
  {
    RunThenLitForced(s, a + |P.open|, x, "", P.fansLabel, k);
  }

  /** A label div that starts later does not end earlier. */
  lemma {:induction false} LabelDivMonotone(s: string, a1: nat, a2: nat, P: DouyinPattern)
    requires P.Forcing() && a1 <= a2 && LabelDivAt(s, a1, P).Some? && LabelDivAt(s, a2, P).Some?
    ensures LabelDivAt(s, a1, P).value <= LabelDivAt(s, a2, P).value
  {
    var k1, k2 := LabelDivAt(s, a1, P).value, LabelDivAt(s, a2, P).value;
    var x1, x2 := k1 - |P.fansLabel|, k2 - |P.fansLabel|;
    LabelDivAtShape(s, a1, P, k1);
    LabelDivAtShape(s, a2, P, k2);
    assert s[x2 + |""| + 0] == P.fansLabel[0];
    NoGtBefore(s, a1 + |P.open|, x1, x2);
  }

  /** The group of the number div starting at `c`, if one starts there. */
  function NumberDivAt(s: string, c: nat, P: DouyinPattern): (r: Option<Span>)
    ensures r.Some? ==> r.value.start < r.value.end <= |s|
  {
    if !LitAt(s, c, P.open) then None
    else match RunThenLit(s, c + |P.open|, "", ">")
      case None => None
      case Some(d) =>
        match DigitsThenLit(s, d, P.close)
        case None => None
        case Some(e) => Some(Span(d, e))
  }

  lemma {:induction false} NumberDivForced(s: string, c: nat, x: int, e: int, P: DouyinPattern)
    requires P.Forcing() && NumberDivShape(s, c, x, e, P)
    ensures NumberDivAt(s, c, P) == Some(Span(x + 1, e))
  {
    RunThenLitForced(s, c + |P.open|, x, "", ">", x + 1);
    DigitsThenLitForced(s, x + 1, e, P.close);
    NumberDivOf(s, c, P, x + 1, e);
  }

  lemma {:induction false} NumberDivOf(s: string, c: nat, P: DouyinPattern, d: nat, e: nat)
    requires LitAt(s, c, P.open) && RunThenLit(s, c + |P.open|, "", ">") == Some(d)
    requires DigitsThenLit(s, d, P.close) == Some(e)
    ensures NumberDivAt(s, c, P) == Some(Span(d, e))
  {
  }

  /** The first label div starting at or after `i`. */
  function NextLabelDiv(s: string, i: nat, P: DouyinPattern): Option<nat>
    requires i <= |s|
    decreases |s| - i
  {
    if LabelDivAt(s, i, P).Some? then Some(i)
    else if i == |s| then None
    else NextLabelDiv(s, i + 1, P)
  }

  /** The first number div starting at or after `i`. */
  function NextNumberDiv(s: string, i: nat, P: DouyinPattern): Option<nat>
    requires i <= |s|
    decreases |s| - i
  {
    if NumberDivAt(s, i, P).Some? then Some(i)
    else if i == |s| then None
    else NextNumberDiv(s, i + 1, P)
  }

  /** The `>` that closes the fans header at `p`, if the header starts there. */
  function DouyinHead(s: string, p: nat, P: DouyinPattern): (r: Option<nat>)
    ensures r.Some? ==> r.value < |s|
  {
    if !LitAt(s, p, P.open) then None else RunAroundLit(s, p + |P.open|, P.fansAttr)
  }

  lemma {:induction false} DouyinHeadForced(s: string, p: nat, x: int, g: int, P: DouyinPattern)
    requires P.Forcing() && DouyinHeadShape(s, p, x, g, P)
    ensures DouyinHead(s, p, P) == Some(g)
  {
    RunAroundLitForced(s, p + |P.open|, x, g, P.fansAttr);
  }

  lemma {:induction false} DouyinHeadWitness(s: string, p: nat, P: DouyinPattern, g: nat) returns (x: int)
    requires DouyinHead(s, p, P) == Some(g)
    ensures DouyinHeadShape(s, p, x, g, P)
  {
    x := RunAroundLitSound(s, p + |P.open|, P.fansAttr, g);
  }

  lemma {:induction false} LabelDivAtShape(s: string, a: nat, P: DouyinPattern, k: nat)
    requires LabelDivAt(s, a, P) == Some(k)
    ensures |P.fansLabel| <= k && LabelDivShape(s, a, k - |P.fansLabel|, P)
  {
    RunThenLitSound(s, a + |P.open|, "", P.fansLabel, k, k - |P.fansLabel|);
  }

  lemma {:induction false} NumberDivAtShape(s: string, c: nat, P: DouyinPattern, m: Span)
    requires NumberDivAt(s, c, P) == Some(m)
    ensures m.start >= 1 && NumberDivShape(s, c, m.start - 1, m.end, P)
  {
    RunThenLitSound(s, c + |P.open|, "", ">", m.start, m.start - 1);
    DigitsThenLitSound(s, m.start, P.close, m.end);
  }

  /** The header at `p` closes at a single place. */
  lemma {:induction false} DouyinHeadUnique(s: string, p: nat, P: DouyinPattern, g: nat, x0: int, g2: int)
    requires P.Forcing() && DouyinHead(s, p, P) == Some(g) && DouyinHeadShape(s, p, x0, g2, P)
    ensures g == g2
  {
    DouyinHeadForced(s, p, x0, g2, P);
  }

  /** The search stops at a label div. */
  lemma {:induction false} NextLabelDivAt(s: string, i: nat, P: DouyinPattern, a: nat)
    requires i <= |s| && NextLabelDiv(s, i, P) == Some(a)
    ensures i <= a && LabelDivAt(s, a, P).Some?
    decreases |s| - i
  {
    if LabelDivAt(s, i, P).None? {
      NextLabelDivAt(s, i + 1, P, a);
    }
  }

  /** The search stops at a number div. */
  lemma {:induction false} NextNumberDivAt(s: string, i: nat, P: DouyinPattern, c: nat)
    requires i <= |s| && NextNumberDiv(s, i, P) == Some(c)
    ensures i <= c && NumberDivAt(s, c, P).Some?
    decreases |s| - i
  {
    if NumberDivAt(s, i, P).None? {
      NextNumberDivAt(s, i + 1, P, c);
    }
  }

  /** The search passes over no label div. */
  lemma {:induction false} NextLabelDivLeast(s: string, i: nat, P: DouyinPattern, a: nat, a2: nat)
    requires i <= |s| && NextLabelDiv(s, i, P) == Some(a) && i <= a2 && LabelDivAt(s, a2, P).Some?
    ensures a <= a2
    decreases |s| - i
  {
    if i < a2 && LabelDivAt(s, i, P).None? {
      NextLabelDivLeast(s, i + 1, P, a, a2);
    }
  }

  /** The search passes over no number div. */
  lemma {:induction false} NextNumberDivLeast(s: string, i: nat, P: DouyinPattern, c: nat, c2: nat)
    requires i <= |s| && NextNumberDiv(s, i, P) == Some(c) && i <= c2 && NumberDivAt(s, c2, P).Some?
    ensures c <= c2
    decreases |s| - i
  {
    if i < c2 && NumberDivAt(s, i, P).None? {
      NextNumberDivLeast(s, i + 1, P, c, c2);
    }
  }

  /** A label div at or after `i` means the search finds one, no later than it. */
  lemma {:induction false} NextLabelDivFound(s: string, i: nat, P: DouyinPattern, a: nat)
    requires i <= a && LabelDivAt(s, a, P).Some?
    ensures i <= |s| && NextLabelDiv(s, i, P).Some? && NextLabelDiv(s, i, P).value <= a
    decreases a - i
  {
    if i < a && LabelDivAt(s, i, P).None? {
      NextLabelDivFound(s, i + 1, P, a);
    }
  }

  /** A number div at or after `i` means the search finds one, no later than it. */
  lemma {:induction false} NextNumberDivFound(s: string, i: nat, P: DouyinPattern, c: nat)
    requires i <= c && NumberDivAt(s, c, P).Some?
    ensures i <= |s| && NextNumberDiv(s, i, P).Some? && NextNumberDiv(s, i, P).value <= c
    decreases c - i
  {
    if i < c && NumberDivAt(s, i, P).None? {
      NextNumberDivFound(s, i + 1, P, c);
    }
  }
}
