/**
 * What `re.search` does with a pattern that is tried at one start index at a
 * time: the first start, from left to right, where the attempt succeeds.
 * `f(p)` is the outcome of the attempt at `p`; a text of length `n` has
 * starts `0` to `n`.
 */
module Search {
  import opened Wrappers

  /** `re.search`: the result at the leftmost index in [p, n] where `f` reports one. */
  function FirstHit<T>(f: nat -> Option<T>, p: nat, n: nat): Option<T>
    decreases n + 1 - p
  {
    if p > n then None
    else match f(p)
      case Some(v) => Some(v)
      case None => FirstHit(f, p + 1, n)
  }

  /** The search reports the result at an index where `f` reports one and no earlier index does. */
  lemma {:induction false} FirstHitSound<T>(f: nat -> Option<T>, p: nat, n: nat, v: T) returns (q: nat)
    requires FirstHit(f, p, n) == Some(v)
    ensures p <= q <= n && f(q) == Some(v)
    ensures forall q2: nat | p <= q2 < q :: f(q2) == None
    decreases n + 1 - p
  {
    if f(p).Some? {
      q := p;
    } else {
      q := FirstHitSound(f, p + 1, n, v);
    }
  }

  /** A search that reports nothing passed over every index. */
  lemma {:induction false} FirstHitNone<T>(f: nat -> Option<T>, p: nat, n: nat, q: nat)
    requires FirstHit(f, p, n) == None && p <= q <= n
    ensures f(q) == None
    decreases q - p
  {
    if p < q {
      FirstHitNone(f, p + 1, n, q);
    }
  }

  /** The leftmost index with a result decides what the search reports. */
  lemma {:induction false} FirstHitLeftmost<T>(f: nat -> Option<T>, p: nat, n: nat, q: nat, v: T)
    requires p <= q <= n && f(q) == Some(v)
    requires forall q2: nat | p <= q2 < q :: f(q2) == None
    ensures FirstHit(f, p, n) == Some(v)
    decreases q - p
  {
    if p < q {
      FirstHitLeftmost(f, p + 1, n, q, v);
    }
  }

  /** Two attempt functions that agree on [p, n] give the same search result. */
  lemma {:induction false} FirstHitSame<T>(f: nat -> Option<T>, g: nat -> Option<T>, p: nat, n: nat)
    requires forall q: nat | p <= q <= n :: f(q) == g(q)
    ensures FirstHit(f, p, n) == FirstHit(g, p, n)
    decreases n + 1 - p
  {
    if p <= n {
      FirstHitSame(f, g, p + 1, n);
    }
  }
}
