/**
 * The three follower-count extractors of `DataExtractor`: each searches the
 * page with `re.search` for its platform's pattern and returns group 1 as an
 * integer, or nothing when the pattern does not occur.
 */
module Extractors {
  import opened Wrappers
  import opened Text
  import opened Patterns
  import opened BilibiliRegex
  import opened XiaohongshuRegex
  import opened DouyinSteps
  import opened DouyinRegex
  import opened Search

  datatype Platform = Bilibili | Douyin | Xiaohongshu {
    /** The platform key written into the history and searched for in file names. */
    function Name(): string {
      match this
      case Bilibili => "bilibili"
      case Douyin => "douyin"
      case Xiaohongshu => "xiaohongshu"
    }
  }

  /** The pattern of platform `pf` matches at `p` and group 1 is s[m.start..m.end]. */
  ghost predicate Finds(pf: Platform, s: string, p: int, m: Span) {
    match pf
    case Bilibili => BilibiliFinds(s, p, m, BilibiliFans())
    case Douyin => DouyinFinds(s, p, m, DouyinFans())
    case Xiaohongshu => XiaohongshuFinds(s, p, m, XiaohongshuFans())
  }

  /**
   * The pattern of platform `pf` matches at `p` in some way, whichever group
   * the engine would go on to report (for Douyin, any label div and any
   * number div, not only the pair the lazy quantifiers prefer).
   */
  ghost predicate Matches(pf: Platform, s: string, p: int) {
    match pf
    case Bilibili => exists m :: BilibiliFinds(s, p, m, BilibiliFans())
    case Douyin => exists a, c :: DouyinTry(s, p, a, c, DouyinFans())
    case Xiaohongshu => exists m :: XiaohongshuFinds(s, p, m, XiaohongshuFans())
  }

  /** A match that reports a group is a match. */
  lemma {:induction false} FindsMatches(pf: Platform, s: string, p: int, m: Span)
    requires Finds(pf, s, p, m)
    ensures Matches(pf, s, p)
  {
    if pf == Douyin {
      var a, c := DouyinFindsTry(s, p, m, DouyinFans());
    }
  }

  /** A match starts inside the text. */
  lemma {:induction false} MatchesStart(pf: Platform, s: string, p: int)
    requires Matches(pf, s, p)
    ensures 0 <= p <= |s|
  {
    match pf
    case Bilibili =>
      var m :| BilibiliFinds(s, p, m, BilibiliFans());
      BilibiliFindsGroup(s, p, m, BilibiliFans());
    case Douyin =>
      var a, c :| DouyinTry(s, p, a, c, DouyinFans());
      var x0, g, x1, x2, e := DouyinTryWitness(s, p, a, c, DouyinFans());
    case Xiaohongshu =>
      var m :| XiaohongshuFinds(s, p, m, XiaohongshuFans());
      XiaohongshuFindsGroup(s, p, m, XiaohongshuFans());
  }

  /** Where group 1 of the pattern of `pf` lies when the match is tried at `p`. */
  function MatchAt(pf: Platform, s: string, p: nat): (r: Option<Span>)
    ensures r.Some? ==> r.value.start < r.value.end <= |s|
  {
    match pf
    case Bilibili => BilibiliMatchAt(s, p, BilibiliFans())
    case Douyin => DouyinMatchAt(s, p, DouyinFans())
    case Xiaohongshu => XiaohongshuMatchAt(s, p, XiaohongshuFans())
  }

  /** The matcher reports a group only where the pattern matches, and it is the group of that match. */
  lemma {:induction false} MatchAtSound(pf: Platform, s: string, p: nat, m: Span)
    requires MatchAt(pf, s, p) == Some(m)
    ensures Finds(pf, s, p, m)
  {
    match pf
    case Bilibili => BilibiliMatchAtSound(s, p, BilibiliFans(), m);
    case Douyin =>
      DouyinForcing();
      DouyinMatchAtSound(s, p, DouyinFans(), m);
    case Xiaohongshu => XiaohongshuMatchAtSound(s, p, XiaohongshuFans(), m);
  }

  /** Wherever the pattern matches in any way, the matcher reports a group there. */
  lemma {:induction false} MatchesReported(pf: Platform, s: string, p: nat)
    requires Matches(pf, s, p)
    ensures MatchAt(pf, s, p).Some?
  {
    match pf
    case Bilibili =>
      var m :| BilibiliFinds(s, p, m, BilibiliFans());
      BilibiliForcing();
      BilibiliMatchAtComplete(s, p, m, BilibiliFans());
    case Douyin =>
      var a, c :| DouyinTry(s, p, a, c, DouyinFans());
      DouyinForcing();
      DouyinTryReported(s, p, a, c, DouyinFans());
    case Xiaohongshu =>
      var m :| XiaohongshuFinds(s, p, m, XiaohongshuFans());
      XiaohongshuForcing();
      XiaohongshuMatchAtComplete(s, p, m, XiaohongshuFans());
  }

  /** Wherever the pattern matches, the matcher reports that match's group. */
  lemma {:induction false} MatchAtComplete(pf: Platform, s: string, p: nat, m: Span)
    requires Finds(pf, s, p, m)
    ensures MatchAt(pf, s, p) == Some(m)
  {
    match pf
    case Bilibili =>
      BilibiliForcing();
      BilibiliMatchAtComplete(s, p, m, BilibiliFans());
    case Douyin =>
      DouyinForcing();
      DouyinMatchAtComplete(s, p, m, DouyinFans());
    case Xiaohongshu =>
      XiaohongshuForcing();
      XiaohongshuMatchAtComplete(s, p, m, XiaohongshuFans());
  }

  /** At a given start the pattern has at most one group: the match there is determined. */
  lemma {:induction false} FindsUnique(pf: Platform, s: string, p: nat, m1: Span, m2: Span)
    requires Finds(pf, s, p, m1) && Finds(pf, s, p, m2)
    ensures m1 == m2
  {
    MatchAtComplete(pf, s, p, m1);
    MatchAtComplete(pf, s, p, m2);
  }

  /** A match starts inside the text and group 1 is a non-empty run of ASCII digits (`\d+`). */
  lemma {:induction false} FindsGroup(pf: Platform, s: string, p: int, m: Span)
    requires Finds(pf, s, p, m)
    ensures 0 <= p <= |s| && DigitsIn(s, m.start, m.end)
  {
    match pf
    case Bilibili => BilibiliFindsGroup(s, p, m, BilibiliFans());
    case Douyin => DouyinFindsGroup(s, p, m, DouyinFans());
    case Xiaohongshu => XiaohongshuFindsGroup(s, p, m, XiaohongshuFans());
  }

  /** `int(match.group(1))` when the match is tried at `p`. */
  function FollowersAt(pf: Platform, s: string, p: nat): Option<nat> {
    match MatchAt(pf, s, p)
    case None => None
    case Some(m) => Some(NumberIn(s, m.start, m.end))
  }

  /** A count reported at `p` is the value of the group of the match at `p`. */
  lemma {:induction false} FollowersAtSound(pf: Platform, s: string, p: nat, n: nat) returns (m: Span)
    requires FollowersAt(pf, s, p) == Some(n)
    ensures Finds(pf, s, p, m) && DigitsIn(s, m.start, m.end) && n == NumberIn(s, m.start, m.end)
  {
    m := MatchAt(pf, s, p).value;
    MatchAtSound(pf, s, p, m);
    FindsGroup(pf, s, p, m);
  }

  /** Nothing is reported at `p` exactly when the pattern does not match at `p`. */
  lemma {:induction false} FollowersAtNone(pf: Platform, s: string, p: nat, m: Span)
    requires FollowersAt(pf, s, p) == None
    ensures !Finds(pf, s, p, m)
  {
    if Finds(pf, s, p, m) {
      MatchAtComplete(pf, s, p, m);
    }
  }

  lemma {:induction false} FollowersAtOf(pf: Platform, s: string, p: nat, m: Span)
    requires Finds(pf, s, p, m)
    ensures m.start <= m.end <= |s| && FollowersAt(pf, s, p) == Some(NumberIn(s, m.start, m.end))
  {
    MatchAtComplete(pf, s, p, m);
  }

  /**
   * `extract_bilibili_followers`, `extract_douyin_followers` and
   * `extract_xiaohongshu_followers`: `int(match.group(1))` for the leftmost
   * match of the platform's pattern in the page (`re.search` tries every
   * start from 0 to the length of the page), or nothing when there is none.
   */
  function ExtractFollowers(pf: Platform, html: string): Option<nat> {
    FirstHit((p: nat) => FollowersAt(pf, html, p), 0, |html|)
  }

  /** A reported count is the value of group 1 of the leftmost match, a run of digits. */
  lemma {:induction false} ExtractFollowersSound(pf: Platform, html: string, n: nat) returns (q: nat, m: Span)
    requires ExtractFollowers(pf, html) == Some(n)
    ensures Finds(pf, html, q, m) && DigitsIn(html, m.start, m.end) && n == NumberIn(html, m.start, m.end)
    ensures forall q2: nat, m2 | q2 < q :: !Finds(pf, html, q2, m2)
    ensures forall q2: nat | q2 < q :: !Matches(pf, html, q2)
  {
    var f := (p: nat) => FollowersAt(pf, html, p);
    q := FirstHitSound(f, 0, |html|, n);
    m := FollowersAtSound(pf, html, q, n);
    forall q2: nat, m2 | q2 < q
      ensures !Finds(pf, html, q2, m2)
    {
      assert f(q2) == None;
      FollowersAtNone(pf, html, q2, m2);
    }
    forall q2: nat | q2 < q
      ensures !Matches(pf, html, q2)
    {
      assert f(q2) == None;
      MatchesMiss(pf, html, q2);
    }
  }

  /** Nothing is reported exactly when the pattern matches nowhere in the page. */
  lemma {:induction false} ExtractFollowersNone(pf: Platform, html: string, q: int, m: Span)
    requires ExtractFollowers(pf, html) == None
    ensures !Finds(pf, html, q, m)
    ensures !Matches(pf, html, q)
  {
    if Finds(pf, html, q, m) {
      FindsGroup(pf, html, q, m);
      var f := (p: nat) => FollowersAt(pf, html, p);
      FirstHitNone(f, 0, |html|, q);
      FollowersAtNone(pf, html, q, m);
    }
    if Matches(pf, html, q) {
      MatchesStart(pf, html, q);
      var f := (p: nat) => FollowersAt(pf, html, p);
      FirstHitNone(f, 0, |html|, q);
      MatchesMiss(pf, html, q);
    }
  }

  /** The leftmost match decides the count: the value of its group. */
  lemma {:induction false} ExtractFollowersLeftmost(pf: Platform, html: string, q: nat, m: Span)
    requires Finds(pf, html, q, m)
    requires forall q2: nat, m2 | q2 < q :: !Finds(pf, html, q2, m2)
    ensures m.start <= m.end <= |html| && ExtractFollowers(pf, html) == Some(NumberIn(html, m.start, m.end))
  {
    var f := (p: nat) => FollowersAt(pf, html, p);
    FindsGroup(pf, html, q, m);
    FollowersAtOf(pf, html, q, m);
    forall q2: nat | q2 < q
      ensures f(q2) == None
    {
      FollowersAtMiss(pf, html, q2);
    }
    FirstHitLeftmost(f, 0, |html|, q, NumberIn(html, m.start, m.end));
  }

  lemma {:induction false} MatchesMiss(pf: Platform, s: string, p: nat)
    requires FollowersAt(pf, s, p) == None
    ensures !Matches(pf, s, p)
  {
    if Matches(pf, s, p) {
      MatchesReported(pf, s, p);
    }
  }

  lemma {:induction false} FollowersAtMiss(pf: Platform, s: string, p: nat)
    requires forall m | true :: !Finds(pf, s, p, m)
    ensures FollowersAt(pf, s, p) == None
  {
    if FollowersAt(pf, s, p).Some? {
      var m := FollowersAtSound(pf, s, p, FollowersAt(pf, s, p).value);
    }
  }
}
