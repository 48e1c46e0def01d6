/**
 * The steps the regular-expression engine takes for the pieces the three
 * follower patterns are built from. Each step is a function that says where
 * the piece ends when it is matched from index `i` (or that it does not
 * match), together with a SHAPE predicate that describes every way the piece
 * can match. The `...Sound` lemma is the soundness half (the function's
 * answer is one of the shapes) and the `...Forced` lemma the completeness
 * half (every shape ends where the function says), so the engine's choice at
 * the piece is the only possible one. The functions themselves promise only
 * the bounds their callers need, which keeps every proof that unfolds them
 * small.
 */
module Patterns {
  import opened Wrappers
  import opened Text

  /** The index range s[start..end] of a capturing group. */
  datatype Span = Span(start: nat, end: nat)

  /**
   * `[^>]*` followed by the literal `pre + post`, matched from `i`, with the
   * run ending at `x`. The patterns split their literals so that `pre` holds
   * no `>` and `post` starts with one.
   */
  ghost predicate RunThenLitShape(s: string, i: int, x: int, pre: string, post: string) {
    NoGt(s, i, x) && LitAt(s, x, pre) && LitAt(s, x + |pre|, post)
  }

  /**
   * Where `[^>]*` followed by `pre + post` matched from `i` ends: the run
   * stops at the first `>` of the text, which must be the one `post` starts
   * with.
   */
  function RunThenLit(s: string, i: nat, pre: string, post: string): (r: Option<nat>)
    requires i <= |s|
    ensures r.Some? ==> r.value <= |s|
  {
    match FirstGt(s, i)
    case None => None
    case Some(g) =>
      if g < i + |pre| || !LitAt(s, g - |pre|, pre) || !LitAt(s, g, post) then None
      else Some(g + |post|)
  }

  /** Where the step ends is where one of the shapes ends. */
  lemma {:induction false} RunThenLitSound(s: string, i: nat, pre: string, post: string, z: nat, x: int)
    requires i <= |s| && RunThenLit(s, i, pre, post) == Some(z) && x == z - |post| - |pre|
    ensures RunThenLitShape(s, i, x, pre, post)
  {
    FirstGtSound(s, i, z - |post|);
  }

  lemma {:induction false} RunThenLitForced(s: string, i: nat, x: int, pre: string, post: string, z: nat)
    requires i <= |s| && '>' !in pre && post != [] && post[0] == '>'
    requires RunThenLitShape(s, i, x, pre, post) && z == x + |pre| + |post|
    ensures RunThenLit(s, i, pre, post) == Some(z)
  {
    NoGtAcrossLit(s, i, x, pre);
    assert s[x + |pre| + 0] == post[0];
    FirstGtForced(s, i, x + |pre|);
  }

  /** `[^>]*l[^>]*>` matched from `i`: the runs end at `x` and at `g`, the `>` being at `g`. */
  ghost predicate RunAroundLitShape(s: string, i: int, x: int, g: int, l: string) {
    NoGt(s, i, x) && LitAt(s, x, l) && NoGt(s, x + |l|, g) && GtAt(s, g)
  }

  /** The `>` that closes `[^>]*l[^>]*>` matched from `i`: the first `>`, provided `l` occurs before it. */
  function RunAroundLit(s: string, i: nat, l: string): (r: Option<nat>)
    requires i <= |s|
    ensures r.Some? ==> r.value < |s|
  {
    match FirstGt(s, i)
    case None => None
    case Some(g) => if LitWithin(s, i, g, l) then Some(g) else None
  }

  /** The run ends and the literal sits where one of the shapes says. */
  lemma {:induction false} RunAroundLitSound(s: string, i: nat, l: string, g: nat) returns (x: int)
    requires i <= |s| && RunAroundLit(s, i, l) == Some(g)
    ensures RunAroundLitShape(s, i, x, g, l)
  {
    FirstGtSound(s, i, g);
    LitWithinSound(s, i, g, l);
    x :| i <= x && x + |l| <= g && LitAt(s, x, l);
  }

  lemma {:induction false} RunAroundLitForced(s: string, i: nat, x: int, g: int, l: string)
    requires i <= |s| && '>' !in l
    requires RunAroundLitShape(s, i, x, g, l)
    ensures RunAroundLit(s, i, l) == Some(g)
  {
    NoGtAcrossLit(s, i, x, l);
    NoGtJoin(s, i, x + |l|, g);
    FirstGtForced(s, i, g);
    LitWithinForced(s, i, g, l, x);
  }

  /** `(\d+)w` matched from `i`: the group is s[i..e]. */
  ghost predicate DigitsThenLitShape(s: string, i: int, e: int, w: string) {
    DigitsIn(s, i, e) && LitAt(s, e, w)
  }

  /** Where the digit group of `(\d+)w` matched from `i` ends. */
  function DigitsThenLit(s: string, i: nat, w: string): (r: Option<nat>)
    requires i <= |s|
    ensures r.Some? ==> i < r.value && r.value + |w| <= |s|
  {
    var e := DigitsEnd(s, i);
    if e > i && LitAt(s, e, w) then Some(e) else None
  }

  /** Where the group ends is where one of the shapes puts it. */
  lemma {:induction false} DigitsThenLitSound(s: string, i: nat, w: string, e: nat)
    requires i <= |s| && DigitsThenLit(s, i, w) == Some(e)
    ensures DigitsThenLitShape(s, i, e, w)
  {
    DigitsEndSound(s, i);
  }

  lemma {:induction false} DigitsThenLitForced(s: string, i: nat, e: int, w: string)
    requires i <= |s| && w != [] && !IsDigit(w[0])
    requires DigitsThenLitShape(s, i, e, w)
    ensures DigitsThenLit(s, i, w) == Some(e)
  {
    assert s[e + 0] == w[0];
    DigitsEndForced(s, i, e);
  }

  /** Digits contain no `>`. */
  lemma {:induction false} DigitsNoGt(s: string, i: int, j: int)
    requires DigitsIn(s, i, j)
    ensures NoGt(s, i, j)
  {
    forall k | i <= k < j
      ensures !GtAt(s, k)
    {
      assert DigitAt(s, k);
    }
  }
}
