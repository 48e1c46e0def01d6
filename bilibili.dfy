/**
 * The Bilibili follower pattern, searched with `re.search`:
 *   <span[^>]*class="nav-statistics__item-text">粉丝数</span>
 *   <span[^>]*class="nav-statistics__item-num"[^>]*title="(\d+)">(\d+)</span>
 * stated as a SHAPE predicate (every way it can match at `p`) and as a
 * MATCHER built from the steps in module Patterns, with proofs that the two agree.
 */
module BilibiliRegex {
  import opened Wrappers
  import opened Text
  import opened Patterns

  /**
   * The literal pieces of the Bilibili pattern, in the order they occur; the
   * `">` that closes the title attribute is written into the steps below.
   */
  datatype BiliPattern = BiliPattern(
    open: string, textClass: string, textRest: string,
    numClass: string, titleOpen: string, close: string)
  {
    /** What makes each `[^>]*` and `\d+` of the pattern stop at a single place. */
    predicate Forcing() {
      && '>' !in textClass && textRest != [] && textRest[0] == '>'
      && '>' !in numClass && '>' !in titleOpen
      && titleOpen != [] && !IsDigit(titleOpen[|titleOpen| - 1])
      && close != [] && !IsDigit(close[0])
    }
  }

  function BilibiliFans(): BiliPattern {
    BiliPattern(
      "<span", "class=\"nav-statistics__item-text\"", ">粉丝数</span><span",
      "class=\"nav-statistics__item-num\"", "title=\"", "</span>")
  }

  lemma {:induction false} BilibiliForcing()
    ensures BilibiliFans().Forcing()
  {
  }

  /**
   * `[^>]*class="nav-statistics__item-num"[^>]*title="(\d+)">` from `q`: the
   * first run ends at `b`, and group 1 is s[t..e].
   */
  ghost predicate BiliCountTagShape(s: string, q: int, b: int, t: int, e: int, P: BiliPattern) {
    && NoGt(s, q, b) && LitAt(s, b, P.numClass)
    && NoGt(s, b + |P.numClass|, t - |P.titleOpen|) && LitAt(s, t - |P.titleOpen|, P.titleOpen)
    && DigitsIn(s, t, e) && LitAt(s, e, "\">")
  }

  /** One way the whole Bilibili pattern matches at `p`; group 1 is s[t..e]. */
  ghost predicate BilibiliShape(s: string, p: int, a: int, b: int, t: int, e: int, f: int, P: BiliPattern) {
    && LitAt(s, p, P.open)
    && RunThenLitShape(s, p + |P.open|, a, P.textClass, P.textRest)
    && BiliCountTagShape(s, a + |P.textClass| + |P.textRest|, b, t, e, P)
    && DigitsThenLitShape(s, e + 2, f, P.close)
  }

  /** The Bilibili pattern matches at `p` and group 1 (the `title` attribute) is s[m.start..m.end]. */
  ghost predicate BilibiliFinds(s: string, p: int, m: Span, P: BiliPattern) {
    exists a, b, f {:trigger BilibiliShape(s, p, a, b, m.start, m.end, f, P)} ::
      BilibiliShape(s, p, a, b, m.start, m.end, f, P)
  }

  /**
   * Group 1 of the count tag matched from `q`: the tag ends at the first `>`,
   * which must close `title="<digits>"`, with the item-num class before it.
   */
  function BiliCountTag(s: string, q: nat, P: BiliPattern): (r: Option<Span>)
    requires q <= |s|
    ensures r.Some? ==> r.value.start < r.value.end && r.value.end + 2 <= |s|
  {
    match FirstGt(s, q)
    case None => None
    case Some(h) =>
      if h == 0 || s[h - 1] != '"' then None
      else
        var t := DigitsStart(s, h - 1);
        if t == h - 1 || t < q + |P.titleOpen| || !LitAt(s, t - |P.titleOpen|, P.titleOpen) then None
        else if !LitWithin(s, q, t - |P.titleOpen|, P.numClass) then None
        else Some(Span(t, h - 1))
  }

  /** The group the count tag step reports is the group of one of the shapes. */
  lemma {:induction false} BiliCountTagSound(s: string, q: nat, P: BiliPattern, g: Span) returns (b: int)
    requires q <= |s| && BiliCountTag(s, q, P) == Some(g)
    ensures BiliCountTagShape(s, q, b, g.start, g.end, P)
  {
    var h := FirstGt(s, q).value;
    DigitsStartSound(s, h - 1);
    b := BiliCountTagFound(s, q, P, g.start, h - 1);
  }

  lemma {:induction false} BiliCountTagFound(s: string, q: nat, P: BiliPattern, t: nat, e: nat) returns (b: int)
    requires q <= |s| && FirstGt(s, q) == Some(e + 1) && s[e] == '"'
    requires DigitsIn(s, t, e) && q + |P.titleOpen| <= t
    requires LitAt(s, t - |P.titleOpen|, P.titleOpen) && LitWithin(s, q, t - |P.titleOpen|, P.numClass)
    ensures BiliCountTagShape(s, q, b, t, e, P)
  {
    FirstGtSound(s, q, e + 1);
    LitWithinSound(s, q, t - |P.titleOpen|, P.numClass);
    b :| q <= b && b + |P.numClass| <= t - |P.titleOpen| && LitAt(s, b, P.numClass);
    assert s[e + 0] == "\">"[0] && s[e + 1] == "\">"[1];
  }

  lemma {:induction false} BiliCountTagForced(s: string, q: nat, b: int, t: int, e: int, P: BiliPattern)
    requires q <= |s| && P.Forcing() && BiliCountTagShape(s, q, b, t, e, P)
    ensures BiliCountTag(s, q, P) == Some(Span(t, e))
  {
    var c := t - |P.titleOpen|;
    BiliCountTagFirstGt(s, q, b, t, e, P);
    assert s[e + 0] == "\">"[0];
    assert DigitsStart(s, e) == t by {
      assert s[c + (|P.titleOpen| - 1)] == P.titleOpen[|P.titleOpen| - 1];
      DigitsStartForced(s, t, e);
    }
    LitWithinForced(s, q, c, P.numClass, b);
    BiliCountTagOf(s, q, P, e + 1, t);
  }

  /** The count tag matched from `q` ends at the `>` of its closing `">`. */
  lemma {:induction false} BiliCountTagFirstGt(s: string, q: nat, b: int, t: int, e: int, P: BiliPattern)
    requires q <= |s| && P.Forcing() && BiliCountTagShape(s, q, b, t, e, P)
    ensures FirstGt(s, q) == Some(e + 1)
  {
    var c := t - |P.titleOpen|;
    NoGtAcrossLit(s, q, b, P.numClass);
    NoGtJoin(s, q, b + |P.numClass|, c);
    NoGtAcrossLit(s, q, c, P.titleOpen);
    DigitsNoGt(s, t, e);
    NoGtJoin(s, q, t, e);
    assert s[e + 0] == "\">"[0] && s[e + 1] == "\">"[1];
    assert NoGt(s, q, e + 1);
    FirstGtForced(s, q, e + 1);
  }

  lemma {:induction false} BiliCountTagOf(s: string, q: nat, P: BiliPattern, h: nat, t: nat)
    requires q <= |s| && FirstGt(s, q) == Some(h) && 0 < h && s[h - 1] == '"'
    requires DigitsStart(s, h - 1) == t && q + |P.titleOpen| <= t < h - 1
    requires LitAt(s, t - |P.titleOpen|, P.titleOpen) && LitWithin(s, q, t - |P.titleOpen|, P.numClass)
    ensures BiliCountTag(s, q, P) == Some(Span(t, h - 1))
  {
  }

  lemma {:induction false} BilibiliFound(s: string, p: nat, P: BiliPattern, q: nat, b: int, g: Span, f: nat)
    requires LitAt(s, p, P.open)
    requires q >= |P.textClass| + |P.textRest|
    requires RunThenLitShape(s, p + |P.open|, q - |P.textRest| - |P.textClass|, P.textClass, P.textRest)
    requires BiliCountTagShape(s, q, b, g.start, g.end, P)
    requires DigitsThenLitShape(s, g.end + 2, f, P.close)
    ensures BilibiliFinds(s, p, g, P)
  {
    assert BilibiliShape(s, p, q - |P.textRest| - |P.textClass|, b, g.start, g.end, f, P);
  }

  /** Where group 1 of the Bilibili pattern matched from `p` lies, if it matches there. */
  function BilibiliMatchAt(s: string, p: nat, P: BiliPattern): (r: Option<Span>)
    ensures r.Some? ==> r.value.start < r.value.end <= |s|
  {
    if !LitAt(s, p, P.open) then None
    else match RunThenLit(s, p + |P.open|, P.textClass, P.textRest)
      case None => None
      case Some(q) =>
        match BiliCountTag(s, q, P)
        case None => None
        case Some(g) =>
          match DigitsThenLit(s, g.end + 2, P.close)
          case None => None
          case Some(f) => Some(g)
  }

  lemma {:induction false} BilibiliMatchAtOf(s: string, p: nat, P: BiliPattern, q: nat, g: Span, f: nat)
    requires LitAt(s, p, P.open)
    requires RunThenLit(s, p + |P.open|, P.textClass, P.textRest) == Some(q)
    requires BiliCountTag(s, q, P) == Some(g)
    requires DigitsThenLit(s, g.end + 2, P.close) == Some(f)
    ensures BilibiliMatchAt(s, p, P) == Some(g)
  {
  }

  /** What the matcher reports is the group of a Bilibili match at `p`. */
  lemma {:induction false} BilibiliMatchAtSound(s: string, p: nat, P: BiliPattern, m: Span)
    requires BilibiliMatchAt(s, p, P) == Some(m)
    ensures BilibiliFinds(s, p, m, P)
  {
    var q := RunThenLit(s, p + |P.open|, P.textClass, P.textRest).value;
    var g := BiliCountTag(s, q, P).value;
    var f := DigitsThenLit(s, g.end + 2, P.close).value;
    RunThenLitSound(s, p + |P.open|, P.textClass, P.textRest, q, q - |P.textRest| - |P.textClass|);
    var b := BiliCountTagSound(s, q, P, g);
    DigitsThenLitSound(s, g.end + 2, P.close, f);
    BilibiliFound(s, p, P, q, b, g, f);
  }

  /** Every way the pattern matches at `p` leads the matcher to the same group. */
  lemma {:induction false} BilibiliShapeForced(s: string, p: nat, a: int, b: int, t: int, e: int, f: int, P: BiliPattern)
    requires P.Forcing() && BilibiliShape(s, p, a, b, t, e, f, P)
    ensures BilibiliMatchAt(s, p, P) == Some(Span(t, e))
  {
    var q := a + |P.textClass| + |P.textRest|;
    RunThenLitForced(s, p + |P.open|, a, P.textClass, P.textRest, q);
    BiliCountTagForced(s, q, b, t, e, P);
    DigitsThenLitForced(s, e + 2, f, P.close);
    BilibiliMatchAtOf(s, p, P, q, Span(t, e), f);
  }

  lemma {:induction false} BilibiliMatchAtComplete(s: string, p: nat, m: Span, P: BiliPattern)
    requires P.Forcing() && BilibiliFinds(s, p, m, P)
    ensures BilibiliMatchAt(s, p, P) == Some(m)
  {
    var a, b, f :| BilibiliShape(s, p, a, b, m.start, m.end, f, P);
    BilibiliShapeForced(s, p, a, b, m.start, m.end, f, P);
  }

  /** A match starts inside the text and its group is a run of digits. */
  lemma {:induction false} BilibiliFindsGroup(s: string, p: int, m: Span, P: BiliPattern)
    requires BilibiliFinds(s, p, m, P)
    ensures 0 <= p <= |s| && DigitsIn(s, m.start, m.end)
  {
    var a, b, f :| BilibiliShape(s, p, a, b, m.start, m.end, f, P);
  }
}
