/**
 * The fragments quoted in the doc strings of the extractors and of
 * `extract_timestamp_from_filename`, run through the model. Each page is
 * written as a sequence of pieces (`Concat`), so that the general lemmas say
 * what any page of that shape yields and the samples instantiate them.
 */
module Samples {
  import opened Wrappers
  import opened Text
  import opened Patterns
  import opened BilibiliRegex
  import opened XiaohongshuRegex
  import opened DouyinSteps
  import opened DouyinRegex
  import opened Extractors
  import opened Timestamps
  import opened Driver

  /** The pieces of a page written one after the other. */
  function Concat(ps: seq<string>): string {
    if ps == [] then [] else ps[0] + Concat(ps[1..])
  }

  /** Where piece `j` starts. */
  function Offset(ps: seq<string>, j: nat): nat
    requires j <= |ps|
  {
    |Concat(ps[..j])|
  }

  lemma {:induction false} ConcatSplit(ps: seq<string>, j: nat)
    requires j <= |ps|
    ensures Concat(ps) == Concat(ps[..j]) + Concat(ps[j..])
    decreases j
  {
    if j > 0 {
      ConcatSplit(ps[1..], j - 1);
      assert ps[1..][..j - 1] == ps[1..j] && ps[1..][j - 1..] == ps[j..];
      assert ps[..j][1..] == ps[1..j];
    }
  }

  /** Piece `j` is the slice of the page from its offset to the next one. */
  lemma {:induction false} PieceAt(ps: seq<string>, j: nat)
    requires j < |ps|
    ensures Offset(ps, j) + |ps[j]| == Offset(ps, j + 1) <= |Concat(ps)|
    ensures Concat(ps)[Offset(ps, j)..Offset(ps, j + 1)] == ps[j]
  {
    ConcatSplit(ps, j);
    ConcatSplit(ps[..j + 1], j);
    ConcatSplit(ps, j + 1);
    assert ps[..j + 1][..j] == ps[..j];
    assert ps[..j + 1][j..] == [ps[j]];
    assert Concat([ps[j]]) == ps[j] + Concat([]);
    assert ps[j..] == [ps[j]] + ps[j + 1..];
    assert Concat(ps[j..]) == ps[j] + Concat(ps[j + 1..]);
  }

  lemma {:induction false} PieceLit(ps: seq<string>, j: nat)
    requires j < |ps|
    ensures Offset(ps, j) + |ps[j]| == Offset(ps, j + 1) <= |Concat(ps)|
    ensures LitAt(Concat(ps), Offset(ps, j), ps[j])
  {
    PieceAt(ps, j);
    var s, i := Concat(ps), Offset(ps, j);
    forall k | 0 <= k < |ps[j]|
      ensures s[i + k] == ps[j][k]
    {
      assert s[i..i + |ps[j]|][k] == s[i + k];
    }
  }

  lemma {:induction false} PieceNoGt(ps: seq<string>, j: nat)
    requires j < |ps| && '>' !in ps[j]
    ensures Offset(ps, j) + |ps[j]| == Offset(ps, j + 1) <= |Concat(ps)|
    ensures NoGt(Concat(ps), Offset(ps, j), Offset(ps, j + 1))
  {
    PieceLit(ps, j);
    var s, i := Concat(ps), Offset(ps, j);
    forall k | i <= k < i + |ps[j]|
      ensures !GtAt(s, k)
    {
      assert s[i + (k - i)] == ps[j][k - i];
    }
  }

  lemma {:induction false} PieceDigits(ps: seq<string>, j: nat)
    requires j < |ps| && DigitsIn(ps[j], 0, |ps[j]|)
    ensures Offset(ps, j) + |ps[j]| == Offset(ps, j + 1) <= |Concat(ps)|
    ensures DigitsIn(Concat(ps), Offset(ps, j), Offset(ps, j + 1))
    ensures NumberIn(Concat(ps), Offset(ps, j), Offset(ps, j + 1)) == NumberIn(ps[j], 0, |ps[j]|)
  {
    PieceLit(ps, j);
    NumberInSame(ps[j], Concat(ps), 0, |ps[j]|, Offset(ps, j));
  }

  /** The pieces of a page that opens with a Xiaohongshu count span. */
  function XiaohongshuPieces(P: XhsPattern, t1: string, n: string, t2: string, post: string): seq<string> {
    [P.open, t1, ">", n, P.middle, t2, P.close, post]
  }

  lemma {:induction false} OffsetZero(ps: seq<string>)
    ensures Offset(ps, 0) == 0
  {
    assert ps[..0] == [];
  }

  lemma {:induction false} XiaohongshuPageTag(P: XhsPattern, t1: string, n: string, t2: string, post: string)
    requires '>' !in t1
    ensures var ps := XiaohongshuPieces(P, t1, n, t2, post);
      && LitAt(Concat(ps), 0, P.open)
      && RunThenLitShape(Concat(ps), |P.open|, Offset(ps, 2), "", ">")
      && Offset(ps, 3) == Offset(ps, 2) + 1
  {
    var ps := XiaohongshuPieces(P, t1, n, t2, post);
    OffsetZero(ps);
    PieceLit(ps, 0);
    PieceNoGt(ps, 1);
    PieceLit(ps, 2);
  }

  lemma {:induction false} XiaohongshuPageCount(P: XhsPattern, t1: string, n: string, t2: string, post: string)
    requires DigitsIn(n, 0, |n|)
    ensures var ps := XiaohongshuPieces(P, t1, n, t2, post);
      && DigitsThenLitShape(Concat(ps), Offset(ps, 3), Offset(ps, 4), P.middle)
      && NumberIn(Concat(ps), Offset(ps, 3), Offset(ps, 4)) == NumberIn(n, 0, |n|)
      && Offset(ps, 5) == Offset(ps, 4) + |P.middle|
  {
    var ps := XiaohongshuPieces(P, t1, n, t2, post);
    PieceDigits(ps, 3);
    PieceLit(ps, 4);
  }

  lemma {:induction false} XiaohongshuPageShows(P: XhsPattern, t1: string, n: string, t2: string, post: string)
    requires '>' !in t2
    ensures var ps := XiaohongshuPieces(P, t1, n, t2, post);
      RunThenLitShape(Concat(ps), Offset(ps, 5), Offset(ps, 6), "", P.close)
  {
    var ps := XiaohongshuPieces(P, t1, n, t2, post);
    PieceNoGt(ps, 5);
    PieceLit(ps, 6);
  }

  lemma {:induction false} XiaohongshuSpanFinds(P: XhsPattern, t1: string, n: string, t2: string, post: string)
    requires '>' !in t1 && '>' !in t2 && DigitsIn(n, 0, |n|)
    ensures var ps := XiaohongshuPieces(P, t1, n, t2, post);
      && XiaohongshuFinds(Concat(ps), 0, Span(Offset(ps, 3), Offset(ps, 4)), P)
      && NumberIn(Concat(ps), Offset(ps, 3), Offset(ps, 4)) == NumberIn(n, 0, |n|)
  {
    var ps := XiaohongshuPieces(P, t1, n, t2, post);
    XiaohongshuPageTag(P, t1, n, t2, post);
    XiaohongshuPageCount(P, t1, n, t2, post);
    XiaohongshuPageShows(P, t1, n, t2, post);
    XiaohongshuFound(Concat(ps), 0, P, Offset(ps, 3), Offset(ps, 4), Offset(ps, 6) + |P.close|);
  }

  /**
   * The pieces of a page that opens with the Bilibili statistics spans; `n1`
   * is the `title` attribute and `n2` the text shown.
   */
  function BilibiliPieces(P: BiliPattern, t1: string, t2: string, t3: string, n1: string, n2: string, post: string): seq<string> {
    [P.open, t1, P.textClass, P.textRest, t2, P.numClass, t3, P.titleOpen, n1, "\">", n2, P.close, post]
  }

  lemma {:induction false} BilibiliPageLabel(P: BiliPattern, t1: string, t2: string, t3: string, n1: string, n2: string, post: string)
    requires '>' !in t1
    ensures var ps := BilibiliPieces(P, t1, t2, t3, n1, n2, post);
      && LitAt(Concat(ps), 0, P.open)
      && Offset(ps, 4) >= |P.textClass| + |P.textRest|
      && RunThenLitShape(Concat(ps), |P.open|, Offset(ps, 4) - |P.textRest| - |P.textClass|, P.textClass, P.textRest)
  {
    var ps := BilibiliPieces(P, t1, t2, t3, n1, n2, post);
    OffsetZero(ps);
    PieceLit(ps, 0);
    PieceNoGt(ps, 1);
    PieceLit(ps, 2);
    PieceLit(ps, 3);
  }

  lemma {:induction false} BilibiliPageClass(P: BiliPattern, t1: string, t2: string, t3: string, n1: string, n2: string, post: string)
    requires '>' !in t2 && '>' !in t3
    ensures var ps := BilibiliPieces(P, t1, t2, t3, n1, n2, post);
      && NoGt(Concat(ps), Offset(ps, 4), Offset(ps, 5)) && LitAt(Concat(ps), Offset(ps, 5), P.numClass)
      && NoGt(Concat(ps), Offset(ps, 5) + |P.numClass|, Offset(ps, 7))
      && Offset(ps, 7) + |P.titleOpen| == Offset(ps, 8)
  {
    var ps := BilibiliPieces(P, t1, t2, t3, n1, n2, post);
    PieceNoGt(ps, 4);
    PieceLit(ps, 5);
    PieceNoGt(ps, 6);
    PieceLit(ps, 7);
  }

  lemma {:induction false} BilibiliPageTitle(P: BiliPattern, t1: string, t2: string, t3: string, n1: string, n2: string, post: string)
    requires DigitsIn(n1, 0, |n1|)
    ensures var ps := BilibiliPieces(P, t1, t2, t3, n1, n2, post);
      && LitAt(Concat(ps), Offset(ps, 8) - |P.titleOpen|, P.titleOpen)
      && DigitsIn(Concat(ps), Offset(ps, 8), Offset(ps, 9)) && LitAt(Concat(ps), Offset(ps, 9), "\">")
      && NumberIn(Concat(ps), Offset(ps, 8), Offset(ps, 9)) == NumberIn(n1, 0, |n1|)
      && Offset(ps, 10) == Offset(ps, 9) + 2
  {
    var ps := BilibiliPieces(P, t1, t2, t3, n1, n2, post);
    PieceLit(ps, 7);
    PieceDigits(ps, 8);
    PieceLit(ps, 9);
  }

  lemma {:induction false} BilibiliPageTag(P: BiliPattern, t1: string, t2: string, t3: string, n1: string, n2: string, post: string)
    requires '>' !in t2 && '>' !in t3 && DigitsIn(n1, 0, |n1|)
    ensures var ps := BilibiliPieces(P, t1, t2, t3, n1, n2, post);
      && BiliCountTagShape(Concat(ps), Offset(ps, 4), Offset(ps, 5), Offset(ps, 8), Offset(ps, 9), P)
      && NumberIn(Concat(ps), Offset(ps, 8), Offset(ps, 9)) == NumberIn(n1, 0, |n1|)
      && Offset(ps, 10) == Offset(ps, 9) + 2
  {
    BilibiliPageClass(P, t1, t2, t3, n1, n2, post);
    BilibiliPageTitle(P, t1, t2, t3, n1, n2, post);
  }

  lemma {:induction false} BilibiliPageText(P: BiliPattern, t1: string, t2: string, t3: string, n1: string, n2: string, post: string)
    requires DigitsIn(n2, 0, |n2|)
    ensures var ps := BilibiliPieces(P, t1, t2, t3, n1, n2, post);
      DigitsThenLitShape(Concat(ps), Offset(ps, 10), Offset(ps, 11), P.close)
  {
    var ps := BilibiliPieces(P, t1, t2, t3, n1, n2, post);
    PieceDigits(ps, 10);
    PieceLit(ps, 11);
  }

  lemma {:induction false} BilibiliSpanFinds(P: BiliPattern, t1: string, t2: string, t3: string, n1: string, n2: string, post: string)
    requires '>' !in t1 && '>' !in t2 && '>' !in t3 && DigitsIn(n1, 0, |n1|) && DigitsIn(n2, 0, |n2|)
    ensures var ps := BilibiliPieces(P, t1, t2, t3, n1, n2, post);
      && BilibiliFinds(Concat(ps), 0, Span(Offset(ps, 8), Offset(ps, 9)), P)
      && NumberIn(Concat(ps), Offset(ps, 8), Offset(ps, 9)) == NumberIn(n1, 0, |n1|)
  {
    var ps := BilibiliPieces(P, t1, t2, t3, n1, n2, post);
    BilibiliPageLabel(P, t1, t2, t3, n1, n2, post);
    BilibiliPageTag(P, t1, t2, t3, n1, n2, post);
    BilibiliPageText(P, t1, t2, t3, n1, n2, post);
    BilibiliFound(Concat(ps), 0, P, Offset(ps, 4), Offset(ps, 5), Span(Offset(ps, 8), Offset(ps, 9)), Offset(ps, 11));
  }

  /** The pieces of a page that opens with the Douyin fans block: header, label div, number div. */
  function DouyinPieces(P: DouyinPattern, t1: string, t2: string, t3: string, t4: string, n: string, post: string): seq<string> {
    [P.open, t1, P.fansAttr, t2, ">", P.open, t3, P.fansLabel, P.open, t4, ">", n, P.close, post]
  }

  lemma {:induction false} DouyinPageHead(P: DouyinPattern, t1: string, t2: string, t3: string, t4: string, n: string, post: string)
    requires P.Forcing() && '>' !in t1 && '>' !in t2
    ensures var ps := DouyinPieces(P, t1, t2, t3, t4, n, post);
      && DouyinHead(Concat(ps), 0, P) == Some(Offset(ps, 4))
      && Offset(ps, 5) == Offset(ps, 4) + 1
  {
    var ps := DouyinPieces(P, t1, t2, t3, t4, n, post);
    var s := Concat(ps);
    OffsetZero(ps);
    PieceLit(ps, 0);
    PieceNoGt(ps, 1);
    PieceLit(ps, 2);
    PieceNoGt(ps, 3);
    PieceLit(ps, 4);
    assert GtAt(s, Offset(ps, 4)) by {
      assert s[Offset(ps, 4) + 0] == ">"[0];
    }
    DouyinHeadForced(s, 0, Offset(ps, 2), Offset(ps, 4), P);
  }

  lemma {:induction false} DouyinPageLabel(P: DouyinPattern, t1: string, t2: string, t3: string, t4: string, n: string, post: string)
    requires P.Forcing() && '>' !in t3
    ensures var ps := DouyinPieces(P, t1, t2, t3, t4, n, post);
      && Offset(ps, 5) <= |Concat(ps)|
      && LabelDivAt(Concat(ps), Offset(ps, 5), P) == Some(Offset(ps, 8))
      && NextLabelDiv(Concat(ps), Offset(ps, 5), P) == Some(Offset(ps, 5))
  {
    var ps := DouyinPieces(P, t1, t2, t3, t4, n, post);
    var s := Concat(ps);
    PieceLit(ps, 5);
    PieceNoGt(ps, 6);
    PieceLit(ps, 7);
    assert LitAt(s, Offset(ps, 7), "");
    LabelDivForced(s, Offset(ps, 5), Offset(ps, 7), P, Offset(ps, 8));
  }

  lemma {:induction false} DouyinPageNumberShape(P: DouyinPattern, t1: string, t2: string, t3: string, t4: string, n: string, post: string)
    requires '>' !in t4 && DigitsIn(n, 0, |n|)
    ensures var ps := DouyinPieces(P, t1, t2, t3, t4, n, post);
      && Offset(ps, 8) <= |Concat(ps)|
      && NumberDivShape(Concat(ps), Offset(ps, 8), Offset(ps, 10), Offset(ps, 12), P)
      && Offset(ps, 11) == Offset(ps, 10) + 1
      && NumberIn(Concat(ps), Offset(ps, 11), Offset(ps, 12)) == NumberIn(n, 0, |n|)
  {
    var ps := DouyinPieces(P, t1, t2, t3, t4, n, post);
    var s := Concat(ps);
    PieceLit(ps, 8);
    PieceNoGt(ps, 9);
    PieceLit(ps, 10);
    PieceDigits(ps, 11);
    PieceLit(ps, 12);
    assert LitAt(s, Offset(ps, 10), "");
  }

  lemma {:induction false} DouyinPageNumber(P: DouyinPattern, t1: string, t2: string, t3: string, t4: string, n: string, post: string)
    requires P.Forcing() && '>' !in t4 && DigitsIn(n, 0, |n|)
    ensures var ps := DouyinPieces(P, t1, t2, t3, t4, n, post);
      && Offset(ps, 8) <= |Concat(ps)|
      && NumberDivAt(Concat(ps), Offset(ps, 8), P) == Some(Span(Offset(ps, 11), Offset(ps, 12)))
      && NextNumberDiv(Concat(ps), Offset(ps, 8), P) == Some(Offset(ps, 8))
      && NumberIn(Concat(ps), Offset(ps, 11), Offset(ps, 12)) == NumberIn(n, 0, |n|)
  {
    var ps := DouyinPieces(P, t1, t2, t3, t4, n, post);
    DouyinPageNumberShape(P, t1, t2, t3, t4, n, post);
    NumberDivForced(Concat(ps), Offset(ps, 8), Offset(ps, 10), Offset(ps, 12), P);
  }

  lemma {:induction false} DouyinSpanMatch(P: DouyinPattern, t1: string, t2: string, t3: string, t4: string, n: string, post: string)
    requires P.Forcing() && '>' !in t1 && '>' !in t2 && '>' !in t3 && '>' !in t4 && DigitsIn(n, 0, |n|)
    ensures var ps := DouyinPieces(P, t1, t2, t3, t4, n, post);
      && DouyinMatchAt(Concat(ps), 0, P) == Some(Span(Offset(ps, 11), Offset(ps, 12)))
      && NumberIn(Concat(ps), Offset(ps, 11), Offset(ps, 12)) == NumberIn(n, 0, |n|)
  {
    var ps := DouyinPieces(P, t1, t2, t3, t4, n, post);
    DouyinPageHead(P, t1, t2, t3, t4, n, post);
    DouyinPageLabel(P, t1, t2, t3, t4, n, post);
    DouyinPageNumber(P, t1, t2, t3, t4, n, post);
    DouyinMatchAtOf(Concat(ps), 0, P, Offset(ps, 4), Offset(ps, 5), Offset(ps, 8), Offset(ps, 8));
  }

  /** A page that opens with the Bilibili statistics spans reports the `title` attribute, whatever the text shown. */
  lemma {:induction false} BilibiliLeading(t1: string, t2: string, t3: string, n1: string, n2: string, post: string)
    requires '>' !in t1 && '>' !in t2 && '>' !in t3 && DigitsIn(n1, 0, |n1|) && DigitsIn(n2, 0, |n2|)
    ensures ExtractFollowers(Bilibili, Concat(BilibiliPieces(BilibiliFans(), t1, t2, t3, n1, n2, post))) == Some(NumberIn(n1, 0, |n1|))
  {
    var ps := BilibiliPieces(BilibiliFans(), t1, t2, t3, n1, n2, post);
    BilibiliSpanFinds(BilibiliFans(), t1, t2, t3, n1, n2, post);
    ExtractFollowersLeftmost(Bilibili, Concat(ps), 0, Span(Offset(ps, 8), Offset(ps, 9)));
  }

  /** A page that opens with the Douyin fans block reports the number in its number div. */
  lemma {:induction false} DouyinLeading(t1: string, t2: string, t3: string, t4: string, n: string, post: string)
    requires '>' !in t1 && '>' !in t2 && '>' !in t3 && '>' !in t4 && DigitsIn(n, 0, |n|)
    ensures ExtractFollowers(Douyin, Concat(DouyinPieces(DouyinFans(), t1, t2, t3, t4, n, post))) == Some(NumberIn(n, 0, |n|))
  {
    var ps := DouyinPieces(DouyinFans(), t1, t2, t3, t4, n, post);
    var m := Span(Offset(ps, 11), Offset(ps, 12));
    DouyinForcing();
    DouyinSpanMatch(DouyinFans(), t1, t2, t3, t4, n, post);
    assert MatchAt(Douyin, Concat(ps), 0) == Some(m);
    MatchAtSound(Douyin, Concat(ps), 0, m);
    ExtractFollowersLeftmost(Douyin, Concat(ps), 0, m);
  }

  /** A page that opens with the Xiaohongshu count span reports the count in it. */
  lemma {:induction false} XiaohongshuLeading(t1: string, n: string, t2: string, post: string)
    requires '>' !in t1 && '>' !in t2 && DigitsIn(n, 0, |n|)
    ensures ExtractFollowers(Xiaohongshu, Concat(XiaohongshuPieces(XiaohongshuFans(), t1, n, t2, post))) == Some(NumberIn(n, 0, |n|))
  {
    var ps := XiaohongshuPieces(XiaohongshuFans(), t1, n, t2, post);
    XiaohongshuSpanFinds(XiaohongshuFans(), t1, n, t2, post);
    ExtractFollowersLeftmost(Xiaohongshu, Concat(ps), 0, Span(Offset(ps, 3), Offset(ps, 4)));
  }

  /** The Bilibili fragment quoted in `extract_bilibili_followers`, in pieces. */
  function BilibiliSample(): string {
    Concat(BilibiliPieces(BilibiliFans(), " data-v-8c500df6=\"\" ", " data-v-8c500df6=\"\" ", " ", "532", "532", ""))
  }

  lemma {:induction false} BilibiliSampleCount()
    ensures ExtractFollowers(Bilibili, BilibiliSample()) == Some(532)
  {
    assert DigitsIn("532", 0, 3) && NumberIn("532", 0, 3) == 532;
    BilibiliLeading(" data-v-8c500df6=\"\" ", " data-v-8c500df6=\"\" ", " ", "532", "532", "");
  }

  /** The Douyin fragment quoted in `extract_douyin_followers`, in pieces. */
  function DouyinSample(): string {
    Concat(DouyinPieces(DouyinFans(), " class=\"Q1A_pjwq ELUP9h2u\" ", "", " class=\"uvGnYXqn\"", " class=\"C1cxu0Vq\"", "5439", "</div>"))
  }

  /** The attribute texts of the Douyin fragment hold no `>`, and its number reads 5439. */
  lemma {:induction false} DouyinSampleTexts()
    ensures var t1, t3, t4 := " class=\"Q1A_pjwq ELUP9h2u\" ", " class=\"uvGnYXqn\"", " class=\"C1cxu0Vq\"";
      && '>' !in t1 && '>' !in t3 && '>' !in t4
      && DigitsIn("5439", 0, 4) && NumberIn("5439", 0, 4) == 5439
  {
    assert DigitsIn("5439", 0, 4) && NumberIn("5439", 0, 4) == 5439;
  }

  lemma {:induction false} DouyinSampleCount()
    ensures ExtractFollowers(Douyin, DouyinSample()) == Some(5439)
  {
    DouyinSampleTexts();
    DouyinLeading(" class=\"Q1A_pjwq ELUP9h2u\" ", "", " class=\"uvGnYXqn\"", " class=\"C1cxu0Vq\"", "5439", "</div>");
  }

  /** The Xiaohongshu fragment quoted in `extract_xiaohongshu_followers`, in pieces. */
  function XiaohongshuSample(): string {
    Concat(XiaohongshuPieces(XiaohongshuFans(), " data-v-18b45ae8=\"\"", "1865", " data-v-18b45ae8=\"\"", ""))
  }

  lemma {:induction false} XiaohongshuSampleCount()
    ensures ExtractFollowers(Xiaohongshu, XiaohongshuSample()) == Some(1865)
  {
    assert DigitsIn("1865", 0, 4) && NumberIn("1865", 0, 4) == 1865;
    XiaohongshuLeading(" data-v-18b45ae8=\"\"", "1865", " data-v-18b45ae8=\"\"", "");
  }

  /** The pieces of a file name: a prefix without digits, then `YYYYMMDD_HHMMSS`, then the rest. */
  function NamePieces(pre: string, y: string, mo: string, d: string, h: string, mi: string, se: string, post: string): seq<string> {
    [pre, y, mo, d, "_", h, mi, se, post]
  }

  /** Digits of a valid token field, by width. */
  predicate Field(w: string, width: nat) {
    |w| == width && DigitsIn(w, 0, width)
  }

  lemma {:induction false} NameDatePart(pre: string, y: string, mo: string, d: string, h: string, mi: string, se: string, post: string)
    requires Field(y, 4) && Field(mo, 2) && Field(d, 2)
    ensures var ps := NamePieces(pre, y, mo, d, h, mi, se, post);
      && Offset(ps, 1) == |pre| && Offset(ps, 4) == |pre| + 8 <= |Concat(ps)|
      && DigitsBetween(Concat(ps), |pre|, |pre| + 8)
      && NumberIn(Concat(ps), |pre|, |pre| + 4) == NumberIn(y, 0, 4)
      && NumberIn(Concat(ps), |pre| + 4, |pre| + 6) == NumberIn(mo, 0, 2)
      && NumberIn(Concat(ps), |pre| + 6, |pre| + 8) == NumberIn(d, 0, 2)
  {
    var ps := NamePieces(pre, y, mo, d, h, mi, se, post);
    OffsetZero(ps);
    PieceLit(ps, 0);
    PieceDigits(ps, 1);
    PieceDigits(ps, 2);
    PieceDigits(ps, 3);
  }

  lemma {:induction false} NameTimePart(pre: string, y: string, mo: string, d: string, h: string, mi: string, se: string, post: string)
    requires Field(h, 2) && Field(mi, 2) && Field(se, 2)
    ensures var ps := NamePieces(pre, y, mo, d, h, mi, se, post);
      && Offset(ps, 5) == Offset(ps, 4) + 1 && Offset(ps, 8) == Offset(ps, 5) + 6 <= |Concat(ps)|
      && Concat(ps)[Offset(ps, 4)] == '_'
      && DigitsBetween(Concat(ps), Offset(ps, 5), Offset(ps, 5) + 6)
      && NumberIn(Concat(ps), Offset(ps, 5), Offset(ps, 5) + 2) == NumberIn(h, 0, 2)
      && NumberIn(Concat(ps), Offset(ps, 5) + 2, Offset(ps, 5) + 4) == NumberIn(mi, 0, 2)
      && NumberIn(Concat(ps), Offset(ps, 5) + 4, Offset(ps, 5) + 6) == NumberIn(se, 0, 2)
  {
    var ps := NamePieces(pre, y, mo, d, h, mi, se, post);
    PieceLit(ps, 4);
    PieceDigits(ps, 5);
    PieceDigits(ps, 6);
    PieceDigits(ps, 7);
    assert Concat(ps)[Offset(ps, 4) + 0] == "_"[0];
  }

  lemma {:induction false} NameTokenAt(pre: string, y: string, mo: string, d: string, h: string, mi: string, se: string, post: string)
    requires Field(y, 4) && Field(mo, 2) && Field(d, 2) && Field(h, 2) && Field(mi, 2) && Field(se, 2)
    ensures var ps := NamePieces(pre, y, mo, d, h, mi, se, post);
      && TokenAt(Concat(ps), |pre|)
      && TokenFields(Concat(ps), |pre|)
        == DateTime(NumberIn(y, 0, 4), NumberIn(mo, 0, 2), NumberIn(d, 0, 2), NumberIn(h, 0, 2), NumberIn(mi, 0, 2), NumberIn(se, 0, 2), 0)
  {
    NameDatePart(pre, y, mo, d, h, mi, se, post);
    NameTimePart(pre, y, mo, d, h, mi, se, post);
  }

  lemma {:induction false} NamePrefixNoToken(pre: string, y: string, mo: string, d: string, h: string, mi: string, se: string, post: string)
    requires forall k | 0 <= k < |pre| :: !IsDigit(pre[k])
    ensures forall q: nat | q < |pre| :: !TokenAt(Concat(NamePieces(pre, y, mo, d, h, mi, se, post)), q)
  {
    var ps := NamePieces(pre, y, mo, d, h, mi, se, post);
    var s := Concat(ps);
    OffsetZero(ps);
    PieceLit(ps, 0);
    forall q: nat | q < |pre|
      ensures !TokenAt(s, q)
    {
      assert s[0 + q] == pre[q];
      assert !DigitAt(s, q);
    }
  }

  /** The first token of a name whose prefix holds no digit is the one after the prefix. */
  lemma {:induction false} NameTimestamp(pre: string, y: string, mo: string, d: string, h: string, mi: string, se: string, post: string, now: DateTime)
    requires forall k | 0 <= k < |pre| :: !IsDigit(pre[k])
    requires Field(y, 4) && Field(mo, 2) && Field(d, 2) && Field(h, 2) && Field(mi, 2) && Field(se, 2)
    ensures var t := DateTime(NumberIn(y, 0, 4), NumberIn(mo, 0, 2), NumberIn(d, 0, 2), NumberIn(h, 0, 2), NumberIn(mi, 0, 2), NumberIn(se, 0, 2), 0);
      ExtractTimestamp(Concat(NamePieces(pre, y, mo, d, h, mi, se, post)), now) == (if t.Valid() then Ok(IsoFormat(t)) else Err(t))
  {
    NameTokenAt(pre, y, mo, d, h, mi, se, post);
    NamePrefixNoToken(pre, y, mo, d, h, mi, se, post);
    ExtractTimestampOfToken(Concat(NamePieces(pre, y, mo, d, h, mi, se, post)), now, |pre|);
  }

  /** `bilibili_20251112_154753.html`, the name quoted in `extract_timestamp_from_filename`, in pieces. */
  function SampleName(): string {
    Concat(NamePieces("bilibili_", "2025", "11", "12", "15", "47", "53", ".html"))
  }

  lemma {:induction false} SampleFields()
    ensures Field("2025", 4) && NumberIn("2025", 0, 4) == 2025
    ensures Field("11", 2) && NumberIn("11", 0, 2) == 11
    ensures Field("12", 2) && NumberIn("12", 0, 2) == 12
    ensures Field("15", 2) && NumberIn("15", 0, 2) == 15
    ensures Field("47", 2) && NumberIn("47", 0, 2) == 47
    ensures Field("53", 2) && NumberIn("53", 0, 2) == 53
    ensures forall k | 0 <= k < 9 :: !IsDigit("bilibili_"[k])
  {
  }

  /** The sample name is stamped `2025-11-12T15:47:53` and filed under `2025-11-12`. */
  lemma {:induction false} SampleNameTimestamp(now: DateTime)
    ensures ExtractTimestamp(SampleName(), now) == Ok("2025-11-12T15:47:53")
    ensures DateKey("2025-11-12T15:47:53") == "2025-11-12"
  {
    var t := DateTime(2025, 11, 12, 15, 47, 53, 0);
    SampleFields();
    NameTimestamp("bilibili_", "2025", "11", "12", "15", "47", "53", ".html", now);
    assert t.Valid();
    IsoSample();
    DateKeyOfIso(t);
  }

  lemma {:induction false} IsoDateSample()
    ensures IsoDate(DateTime(2025, 11, 12, 15, 47, 53, 0)) == "2025-11-12"
  {
    assert Padded(2025, 4) == "2025";
    assert Padded(11, 2) == "11";
    assert Padded(12, 2) == "12";
  }

  lemma {:induction false} IsoSample()
    ensures IsoFormat(DateTime(2025, 11, 12, 15, 47, 53, 0)) == "2025-11-12T15:47:53"
    ensures IsoDate(DateTime(2025, 11, 12, 15, 47, 53, 0)) == "2025-11-12"
  {
    var t := DateTime(2025, 11, 12, 15, 47, 53, 0);
    IsoDateSample();
    var h, m, s := Padded(15, 2), Padded(47, 2), Padded(53, 2);
    assert h == "15" && m == "47" && s == "53";
    assert IsoFormat(t) == "2025-11-12" + "T" + "15" + ":" + "47" + ":" + "53" + "";
  }

  lemma {:induction false} SamplePrefix()
    ensures LitAt(SampleName(), 0, "bilibili_")
  {
    var ps := NamePieces("bilibili_", "2025", "11", "12", "15", "47", "53", ".html");
    OffsetZero(ps);
    PieceLit(ps, 0);
  }

  /** Lower-casing keeps a literal of lower-case letters and `_`. */
  lemma {:induction false} LowerKeepsLit(s: string, w: string)
    requires LitAt(s, 0, w) && forall k | 0 <= k < |w| :: LowerChar(w[k]) == w[k]
    ensures LitAt(Lower(s), 0, w)
  {
    var l := Lower(s);
    forall k | 0 <= k < |w|
      ensures l[0 + k] == w[k]
    {
      assert s[0 + k] == w[k];
    }
  }

  /** The sample name, lower-cased, still starts with `bilibili`. */
  lemma {:induction false} SampleNamePlatform()
    ensures PlatformOf(Lower(SampleName())) == Some(Bilibili)
  {
    SamplePrefix();
    assert forall k | 0 <= k < 9 :: LowerChar("bilibili_"[k]) == "bilibili_"[k];
    LowerKeepsLit(SampleName(), "bilibili_");
    assert LitAt(Lower(SampleName()), 0, "bilibili");
  }

  /** A page whose name names a platform and carries a timestamp, and whose pattern occurs, yields that entry. */
  lemma {:induction false} EntryOf(name: string, html: string, now: DateTime, pf: Platform, n: nat, ts: string)
    requires PlatformOf(Lower(name)) == Some(pf) && ExtractFollowers(pf, html) == Some(n)
    requires ExtractTimestamp(name, now) == Ok(ts)
    ensures ProcessHtmlFile(name, html, now) == Ok(Entry(pf, n, ts, name))
  {
    LowerKeepsTokens(name);
  }

  /**
   * `process_html_file` on the sample name and the Bilibili fragment: the
   * platform from the name, 532 from the page, the time from the name and the
   * original name as source.
   */
  lemma {:induction false} SampleEntry(now: DateTime)
    ensures ProcessHtmlFile(SampleName(), BilibiliSample(), now)
      == Ok(Entry(Bilibili, 532, "2025-11-12T15:47:53", SampleName()))
  {
    SampleNamePlatform();
    BilibiliSampleCount();
    SampleNameTimestamp(now);
    EntryOf(SampleName(), BilibiliSample(), now, Bilibili, 532, "2025-11-12T15:47:53");
  }
}
