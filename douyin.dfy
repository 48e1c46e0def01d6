/**
 * The whole Douyin follower pattern: its shapes, the order in which the two
 * lazy `.*?` try them, and the matcher that takes the first label div after
 * the header and the first number div after that.
 */
module DouyinRegex {
  import opened Wrappers
  import opened Text
  import opened Patterns
  import opened DouyinSteps

  /**
   * One way the whole pattern matches at `p`: the first `.*?` runs up to the
   * label div at `a`, the second from the end of that div up to the number
   * div at `c`.
   */
  ghost predicate DouyinShape(s: string, p: int, x0: int, g: int, a: int, x1: int, c: int, x2: int, e: int, P: DouyinPattern) {
    && DouyinHeadShape(s, p, x0, g, P)
    && g + 1 <= a && LabelDivShape(s, a, x1, P)
    && x1 + |P.fansLabel| <= c && NumberDivShape(s, c, x2, e, P)
  }

  /** The pattern can match at `p` with the label div at `a` and the number div at `c`. */
  ghost predicate DouyinTry(s: string, p: int, a: int, c: int, P: DouyinPattern) {
    exists x0, g, x1, x2, e {:trigger DouyinShape(s, p, x0, g, a, x1, c, x2, e, P)} ::
      DouyinShape(s, p, x0, g, a, x1, c, x2, e, P)
  }

  /**
   * The lazy quantifiers try the shortest first `.*?` before a longer one, and
   * for each the shortest second `.*?`: the engine takes the pair `(a, c)`
   * that is least in that order.
   */
  ghost predicate DouyinPreferred(s: string, p: int, a: int, c: int, P: DouyinPattern) {
    forall a2, c2 {:trigger DouyinTry(s, p, a2, c2, P)} ::
      DouyinTry(s, p, a2, c2, P) ==> a < a2 || (a == a2 && c <= c2)
  }

  /** The Douyin pattern matches at `p` and the group the engine reports is s[m.start..m.end]. */
  ghost predicate DouyinFinds(s: string, p: int, m: Span, P: DouyinPattern) {
    exists x0, g, a, x1, c {:trigger DouyinShape(s, p, x0, g, a, x1, c, m.start - 1, m.end, P)} ::
      DouyinShape(s, p, x0, g, a, x1, c, m.start - 1, m.end, P) && DouyinPreferred(s, p, a, c, P)
  }

  /**
   * Where group 1 of the Douyin pattern matched from `p` lies: after the
   * header, the first label div, then the first number div after it.
   */
  function DouyinMatchAt(s: string, p: nat, P: DouyinPattern): (r: Option<Span>)
    ensures r.Some? ==> r.value.start < r.value.end <= |s|
  {
    match DouyinHead(s, p, P)
    case None => None
    case Some(g) => DouyinAfterHead(s, g + 1, P)
  }

  /** The rest of the match once the header has closed just before `i`: the first label div, then what follows it. */
  function DouyinAfterHead(s: string, i: nat, P: DouyinPattern): (r: Option<Span>)
    requires i <= |s|
    ensures r.Some? ==> r.value.start < r.value.end <= |s|
  {
    match NextLabelDiv(s, i, P)
    case None => None
    case Some(a) =>
      match LabelDivAt(s, a, P)
      case None => None
      case Some(k) => DouyinAfterLabel(s, k, P)
  }

  /** The rest of the match once the label div has closed just before `k`: the first number div. */
  function DouyinAfterLabel(s: string, k: nat, P: DouyinPattern): (r: Option<Span>)
    requires k <= |s|
    ensures r.Some? ==> r.value.start < r.value.end <= |s|
  {
    match NextNumberDiv(s, k, P)
    case None => None
    case Some(c) => NumberDivAt(s, c, P)
  }

  /** What the matcher reports is the group of the match the lazy quantifiers prefer. */
  lemma {:induction false} DouyinMatchAtSound(s: string, p: nat, P: DouyinPattern, m: Span)
    requires P.Forcing() && DouyinMatchAt(s, p, P) == Some(m)
    ensures DouyinFinds(s, p, m, P)
  {
    var g := DouyinHead(s, p, P).value;
    var a := NextLabelDiv(s, g + 1, P).value;
    var k := LabelDivAt(s, a, P).value;
    var c := NextNumberDiv(s, k, P).value;
    DouyinFound(s, p, P, g, a, k, c, m);
  }

  lemma {:induction false} DouyinFound(s: string, p: nat, P: DouyinPattern, g: nat, a: nat, k: nat, c: nat, m: Span)
    requires P.Forcing() && DouyinHead(s, p, P) == Some(g) && g + 1 <= |s|
    requires NextLabelDiv(s, g + 1, P) == Some(a) && LabelDivAt(s, a, P) == Some(k) && k <= |s|
    requires NextNumberDiv(s, k, P) == Some(c) && NumberDivAt(s, c, P) == Some(m)
    ensures DouyinFinds(s, p, m, P)
  {
    var x0 := DouyinHeadWitness(s, p, P, g);
    NextLabelDivAt(s, g + 1, P, a);
    NextNumberDivAt(s, k, P, c);
    LabelDivAtShape(s, a, P, k);
    NumberDivAtShape(s, c, P, m);
    DouyinFirstPreferred(s, p, P, g, a, k, c);
    DouyinShapeIntro(s, p, x0, g, a, k, c, m, P);
  }

  lemma {:induction false} DouyinShapeIntro(s: string, p: int, x0: int, g: int, a: int, k: int, c: int, m: Span, P: DouyinPattern)
    requires DouyinHeadShape(s, p, x0, g, P) && g + 1 <= a
    requires |P.fansLabel| <= k <= c && LabelDivShape(s, a, k - |P.fansLabel|, P)
    requires m.start >= 1 && NumberDivShape(s, c, m.start - 1, m.end, P)
    requires DouyinPreferred(s, p, a, c, P)
    ensures DouyinFinds(s, p, m, P)
  {
    assert DouyinShape(s, p, x0, g, a, k - |P.fansLabel|, c, m.start - 1, m.end, P);
  }

  /** The pair the matcher picks is the one the lazy quantifiers prefer. */
  lemma {:induction false} DouyinFirstPreferred(s: string, p: nat, P: DouyinPattern, g: nat, a: nat, k: nat, c: nat)
    requires P.Forcing() && DouyinHead(s, p, P) == Some(g) && g + 1 <= |s|
    requires NextLabelDiv(s, g + 1, P) == Some(a) && LabelDivAt(s, a, P) == Some(k) && k <= |s|
    requires NextNumberDiv(s, k, P) == Some(c)
    ensures DouyinPreferred(s, p, a, c, P)
  {
    forall a2, c2 | DouyinTry(s, p, a2, c2, P)
      ensures a < a2 || (a == a2 && c <= c2)
    {
      DouyinTryAfterFirst(s, p, P, g, a, k, c, a2, c2);
    }
  }

  lemma {:induction false} DouyinTryAfterFirst(s: string, p: nat, P: DouyinPattern, g: nat, a: nat, k: nat, c: nat, a2: int, c2: int)
    requires P.Forcing() && DouyinHead(s, p, P) == Some(g) && g + 1 <= |s|
    requires NextLabelDiv(s, g + 1, P) == Some(a) && LabelDivAt(s, a, P) == Some(k) && k <= |s|
    requires NextNumberDiv(s, k, P) == Some(c)
    requires DouyinTry(s, p, a2, c2, P)
    ensures a < a2 || (a == a2 && c <= c2)
  {
    var x0, g2, x1, x2, e := DouyinTryWitness(s, p, a2, c2, P);
    DouyinHeadUnique(s, p, P, g, x0, g2);
    DouyinLabelNotBefore(s, P, g, a, a2, x1);
    if a == a2 {
      LabelDivForced(s, a2, x1, P, x1 + |""| + |P.fansLabel|);
      DouyinNumberNotBefore(s, P, k, c, c2, x2, e);
    }
  }

  /** No label div after the header starts before the one the matcher takes. */
  lemma {:induction false} DouyinLabelNotBefore(s: string, P: DouyinPattern, g: nat, a: nat, a2: int, x1: int)
    requires P.Forcing() && g + 1 <= |s| && NextLabelDiv(s, g + 1, P) == Some(a)
    requires g + 1 <= a2 && LabelDivShape(s, a2, x1, P)
    ensures a <= a2
  {
    LabelDivForced(s, a2, x1, P, x1 + |""| + |P.fansLabel|);
    NextLabelDivLeast(s, g + 1, P, a, a2);
  }

  /** No number div after the label div starts before the one the matcher takes. */
  lemma {:induction false} DouyinNumberNotBefore(s: string, P: DouyinPattern, k: nat, c: nat, c2: int, x2: int, e: int)
    requires P.Forcing() && k <= |s| && NextNumberDiv(s, k, P) == Some(c)
    requires k <= c2 && NumberDivShape(s, c2, x2, e, P)
    ensures c <= c2
  {
    NumberDivForced(s, c2, x2, e, P);
    NextNumberDivLeast(s, k, P, c, c2);
  }

  lemma {:induction false} DouyinTryWitness(s: string, p: int, a: int, c: int, P: DouyinPattern) returns (x0: int, g: int, x1: int, x2: int, e: int)
    requires DouyinTry(s, p, a, c, P)
    ensures DouyinHeadShape(s, p, x0, g, P) && g + 1 <= a && LabelDivShape(s, a, x1, P)
    ensures x1 + |P.fansLabel| <= c && NumberDivShape(s, c, x2, e, P)
  {
    x0, g, x1, x2, e :| DouyinShape(s, p, x0, g, a, x1, c, x2, e, P);
  }

  /**
   * Any way the pattern matches at `p`, preferred or not, makes the matcher
   * report a group there: the lazy quantifiers only choose among matches,
   * they never lose one.
   */
  lemma {:induction false} DouyinTryReported(s: string, p: nat, a: int, c: int, P: DouyinPattern)
    requires P.Forcing() && DouyinTry(s, p, a, c, P)
    ensures DouyinMatchAt(s, p, P).Some?
  {
    var x0, g, x1, x2, e := DouyinTryWitness(s, p, a, c, P);
    var k := x1 + |P.fansLabel|;
    DouyinHeadForced(s, p, x0, g, P);
    LabelDivForced(s, a, x1, P, k);
    NextLabelDivFound(s, g + 1, P, a);
    var a1 := NextLabelDiv(s, g + 1, P).value;
    NextLabelDivAt(s, g + 1, P, a1);
    var k1 := LabelDivAt(s, a1, P).value;
    LabelDivMonotone(s, a1, a, P);
    NumberDivForced(s, c, x2, e, P);
    NextNumberDivFound(s, k1, P, c);
    var c1 := NextNumberDiv(s, k1, P).value;
    NextNumberDivAt(s, k1, P, c1);
    DouyinMatchAtOf(s, p, P, g, a1, k1, c1);
  }

  /** The matcher's answer once each of its steps is known. */
  lemma {:induction false} DouyinMatchAtOf(s: string, p: nat, P: DouyinPattern, g: nat, a: nat, k: nat, c: nat)
    requires DouyinHead(s, p, P) == Some(g) && g + 1 <= |s|
    requires NextLabelDiv(s, g + 1, P) == Some(a) && LabelDivAt(s, a, P) == Some(k) && k <= |s|
    requires NextNumberDiv(s, k, P) == Some(c)
    ensures DouyinMatchAt(s, p, P) == NumberDivAt(s, c, P)
  {
    DouyinHeadOf(s, p, P, g);
    DouyinAfterHeadOf(s, g + 1, P, a, k);
    DouyinAfterLabelOf(s, k, P, c);
  }

  lemma {:induction false} DouyinHeadOf(s: string, p: nat, P: DouyinPattern, g: nat)
    requires DouyinHead(s, p, P) == Some(g)
    ensures g + 1 <= |s| && DouyinMatchAt(s, p, P) == DouyinAfterHead(s, g + 1, P)
  {
  }

  lemma {:induction false} DouyinAfterHeadOf(s: string, i: nat, P: DouyinPattern, a: nat, k: nat)
    requires i <= |s| && NextLabelDiv(s, i, P) == Some(a) && LabelDivAt(s, a, P) == Some(k)
    ensures k <= |s| && DouyinAfterHead(s, i, P) == DouyinAfterLabel(s, k, P)
  {
  }

  lemma {:induction false} DouyinAfterLabelOf(s: string, k: nat, P: DouyinPattern, c: nat)
    requires k <= |s| && NextNumberDiv(s, k, P) == Some(c)
    ensures DouyinAfterLabel(s, k, P) == NumberDivAt(s, c, P)
  {
  }

  /** An instance of the preference: no other way to match comes earlier. */
  lemma {:induction false} DouyinPreferredAt(s: string, p: int, a: int, c: int, a2: int, c2: int, P: DouyinPattern)
    requires DouyinPreferred(s, p, a, c, P) && DouyinTry(s, p, a2, c2, P)
    ensures a < a2 || (a == a2 && c <= c2)
  {
  }

  lemma {:induction false} DouyinTryIntro(s: string, p: int, x0: int, g: int, a: int, x1: int, c: int, x2: int, e: int, P: DouyinPattern)
    requires DouyinShape(s, p, x0, g, a, x1, c, x2, e, P)
    ensures DouyinTry(s, p, a, c, P)
  {
  }

  /** The label div the lazy quantifiers prefer is the first one after the header. */
  lemma {:induction false} DouyinLabelFirst(s: string, p: nat, x0: int, g: nat, a: nat, x1: int, c: int, x2: int, e: int, P: DouyinPattern)
    requires P.Forcing() && DouyinShape(s, p, x0, g, a, x1, c, x2, e, P) && DouyinPreferred(s, p, a, c, P)
    ensures g + 1 <= |s| && NextLabelDiv(s, g + 1, P) == Some(a)
  {
    LabelDivForced(s, a, x1, P, x1 + |""| + |P.fansLabel|);
    NextLabelDivFound(s, g + 1, P, a);
    var a1 := NextLabelDiv(s, g + 1, P).value;
    DouyinLabelCandidate(s, p, x0, g, a, x1, c, x2, e, P, a1);
    DouyinPreferredAt(s, p, a, c, a1, c, P);
  }

  /** The first label div after the header, followed by the same number div, is another way to match. */
  lemma {:induction false} DouyinLabelCandidate(s: string, p: nat, x0: int, g: nat, a: nat, x1: int, c: int, x2: int, e: int, P: DouyinPattern, a1: nat)
    requires P.Forcing() && DouyinShape(s, p, x0, g, a, x1, c, x2, e, P)
    requires g + 1 <= |s| && NextLabelDiv(s, g + 1, P) == Some(a1) && a1 <= a
    ensures DouyinTry(s, p, a1, c, P)
  {
    LabelDivForced(s, a, x1, P, x1 + |""| + |P.fansLabel|);
    NextLabelDivAt(s, g + 1, P, a1);
    var k1 := LabelDivAt(s, a1, P).value;
    LabelDivMonotone(s, a1, a, P);
    LabelDivAtShape(s, a1, P, k1);
    DouyinTryIntro(s, p, x0, g, a1, k1 - |P.fansLabel|, c, x2, e, P);
  }

  /** The number div the lazy quantifiers prefer is the first one after the label div. */
  lemma {:induction false} DouyinNumberFirst(s: string, p: nat, x0: int, g: nat, a: nat, x1: int, c: nat, x2: int, e: int, P: DouyinPattern, k: nat)
    requires P.Forcing() && DouyinShape(s, p, x0, g, a, x1, c, x2, e, P) && DouyinPreferred(s, p, a, c, P)
    requires k == x1 + |P.fansLabel|
    ensures k <= |s| && NextNumberDiv(s, k, P) == Some(c)
  {
    NumberDivForced(s, c, x2, e, P);
    NextNumberDivFound(s, k, P, c);
    var c1 := NextNumberDiv(s, k, P).value;
    DouyinNumberCandidate(s, p, x0, g, a, x1, k, P, c1);
    DouyinPreferredAt(s, p, a, c, a, c1, P);
  }

  /** The same label div followed by the first number div after it is another way to match. */
  lemma {:induction false} DouyinNumberCandidate(s: string, p: nat, x0: int, g: nat, a: nat, x1: int, k: nat, P: DouyinPattern, c1: nat)
    requires DouyinHeadShape(s, p, x0, g, P) && g + 1 <= a && LabelDivShape(s, a, x1, P)
    requires k == x1 + |P.fansLabel| && k <= |s| && NextNumberDiv(s, k, P) == Some(c1)
    ensures DouyinTry(s, p, a, c1, P)
  {
    NextNumberDivAt(s, k, P, c1);
    var m1 := NumberDivAt(s, c1, P).value;
    NumberDivAtShape(s, c1, P, m1);
    DouyinTryIntro(s, p, x0, g, a, x1, c1, m1.start - 1, m1.end, P);
  }

  /** Every preferred way the pattern matches at `p` leads the matcher to its group. */
  lemma {:induction false} DouyinShapeForced(s: string, p: nat, x0: int, g: nat, a: nat, x1: int, c: nat, x2: int, e: int, P: DouyinPattern)
    requires P.Forcing() && DouyinShape(s, p, x0, g, a, x1, c, x2, e, P) && DouyinPreferred(s, p, a, c, P)
    ensures DouyinMatchAt(s, p, P) == Some(Span(x2 + 1, e))
  {
    var k := x1 + |P.fansLabel|;
    DouyinHeadForced(s, p, x0, g, P);
    DouyinLabelFirst(s, p, x0, g, a, x1, c, x2, e, P);
    LabelDivForced(s, a, x1, P, k);
    DouyinNumberFirst(s, p, x0, g, a, x1, c, x2, e, P, k);
    NumberDivForced(s, c, x2, e, P);
    DouyinMatchAtOf(s, p, P, g, a, k, c);
  }

  lemma {:induction false} DouyinMatchAtComplete(s: string, p: nat, m: Span, P: DouyinPattern)
    requires P.Forcing() && DouyinFinds(s, p, m, P)
    ensures DouyinMatchAt(s, p, P) == Some(m)
  {
    var x0, g, a, x1, c :| DouyinShape(s, p, x0, g, a, x1, c, m.start - 1, m.end, P) && DouyinPreferred(s, p, a, c, P);
    DouyinShapeForced(s, p, x0, g, a, x1, c, m.start - 1, m.end, P);
  }

  /** The preferred match is one of the ways the pattern matches. */
  lemma {:induction false} DouyinFindsTry(s: string, p: int, m: Span, P: DouyinPattern) returns (a: int, c: int)
    requires DouyinFinds(s, p, m, P)
    ensures DouyinTry(s, p, a, c, P) && DouyinPreferred(s, p, a, c, P)
  {
    var x0, g, x1;
    x0, g, a, x1, c :| DouyinShape(s, p, x0, g, a, x1, c, m.start - 1, m.end, P) && DouyinPreferred(s, p, a, c, P);
    DouyinTryIntro(s, p, x0, g, a, x1, c, m.start - 1, m.end, P);
  }

  /** A match starts inside the text and its group is a run of digits. */
  lemma {:induction false} DouyinFindsGroup(s: string, p: int, m: Span, P: DouyinPattern)
    requires DouyinFinds(s, p, m, P)
    ensures 0 <= p <= |s| && DigitsIn(s, m.start, m.end)
  {
    var x0, g, a, x1, c :| DouyinShape(s, p, x0, g, a, x1, c, m.start - 1, m.end, P) && DouyinPreferred(s, p, a, c, P);
  }
}
