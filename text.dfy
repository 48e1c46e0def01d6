/**
 * Character and substring primitives shared by the HTML patterns and the
 * filename timestamp: ASCII digits (the `\d` class), literal matches at an
 * index, runs without `>` (the `[^>]*` class), Python's `int()` on a digit
 * run and the zero-padded `%0Nd` formatting used by `isoformat()`.
 */
module Text {
  import opened Wrappers

  predicate IsDigit(c: char) {
    '0' <= c <= '9'
  }

  /** Index `k` of `s` holds a digit. */
  predicate DigitAt(s: string, k: int) {
    0 <= k < |s| && IsDigit(s[k])
  }

  /** The characters s[i..j] are all digits (there may be none). */
  predicate DigitsBetween(s: string, i: int, j: int) {
    0 <= i <= j <= |s| && forall k | i <= k < j :: DigitAt(s, k)
  }

  /** The characters s[i..j] form a non-empty run of digits: what `\d+` consumes. */
  predicate DigitsIn(s: string, i: int, j: int) {
    i < j && DigitsBetween(s, i, j)
  }

  /** Index `k` of `s` holds a `>`. */
  predicate GtAt(s: string, k: int) {
    0 <= k < |s| && s[k] == '>'
  }

  /** The characters s[i..j] contain no `>`: what `[^>]*` consumes. */
  predicate NoGt(s: string, i: int, j: int) {
    0 <= i <= j <= |s| && forall k | i <= k < j :: !GtAt(s, k)
  }

  /** The literal `w` occurs in `s` starting at index `i`. */
  predicate LitAt(s: string, i: int, w: string) {
    0 <= i && i + |w| <= |s| && forall k | 0 <= k < |w| :: s[i + k] == w[k]
  }

  /** The literal `w` occurs entirely inside s[i..j]. */
  predicate OccursIn(s: string, i: int, j: int, w: string) {
    exists a | i <= a && a + |w| <= j :: LitAt(s, a, w)
  }

  /** Whether the literal `w` occurs entirely inside s[i..j], tried from the left. */
  predicate LitWithin(s: string, i: int, j: int, w: string)
    decreases j - i
  {
    0 <= i && i + |w| <= j && (LitAt(s, i, w) || LitWithin(s, i + 1, j, w))
  }

  lemma {:induction false} LitWithinSound(s: string, i: int, j: int, w: string)
    requires LitWithin(s, i, j, w)
    ensures OccursIn(s, i, j, w)
    decreases j - i
  {
    if !LitAt(s, i, w) {
      LitWithinSound(s, i + 1, j, w);
    }
  }

  lemma {:induction false} LitWithinForced(s: string, i: int, j: int, w: string, a: int)
    requires 0 <= i <= a && a + |w| <= j && LitAt(s, a, w)
    ensures LitWithin(s, i, j, w)
    decreases a - i
  {
    if i < a {
      LitWithinForced(s, i + 1, j, w, a);
    }
  }

  /** Python's `w in s`. */
  predicate Contains(s: string, w: string) {
    OccursIn(s, 0, |s|, w)
  }

  /** The value of a digit character; any other character counts as 0. */
  function DigitValue(c: char): (d: nat)
    ensures d < 10
  {
    if IsDigit(c) then c as int - '0' as int else 0
  }

  function DigitChar(d: nat): (c: char)
    requires d < 10
    ensures IsDigit(c) && DigitValue(c) == d
  {
    ('0' as int + d) as char
  }

  /** Python's `int(s[i:j])` for a run of ASCII digits (leading zeros allowed). */
  function NumberIn(s: string, i: int, j: int): nat
    requires 0 <= i <= j <= |s|
    decreases j - i
  {
    if j == i then 0 else NumberIn(s, i, j - 1) * 10 + DigitValue(s[j - 1])
  }

  /** The value of a digit run depends only on its characters. */
  lemma {:induction false} NumberInSame(s: string, t: string, i: int, j: int, d: int)
    requires DigitsBetween(s, i, j) && 0 <= d && j + d <= |t|
    requires forall k | i <= k < j :: t[k + d] == s[k]
    ensures DigitsBetween(t, i + d, j + d) && NumberIn(t, i + d, j + d) == NumberIn(s, i, j)
    decreases j - i
  {
    if j > i {
      NumberInSame(s, t, i, j - 1, d);
      assert t[j - 1 + d] == s[j - 1] && DigitAt(s, j - 1);
      assert DigitAt(t, j - 1 + d);
    }
  }

  /** `n` written in base 10 with exactly `width` digits, zero-padded on the left (`%0Nd`). */
  function Padded(n: nat, width: nat): (r: string)
    ensures |r| == width
  {
    if width == 0 then [] else Padded(n / 10, width - 1) + [DigitChar(n % 10)]
  }

  /** Zero-padded numbers consist of digits only. */
  lemma {:induction false} PaddedDigits(n: nat, width: nat)
    ensures DigitsBetween(Padded(n, width), 0, width)
  {
    if width > 0 {
      var q := Padded(n / 10, width - 1);
      var r := Padded(n, width);
      PaddedDigits(n / 10, width - 1);
      forall k | 0 <= k < width
        ensures DigitAt(r, k)
      {
        if k < width - 1 {
          assert DigitAt(q, k) && r[k] == q[k];
        }
      }
    }
  }

  function Pow10(k: nat): (r: nat)
    ensures r >= 1
  {
    if k == 0 then 1 else 10 * Pow10(k - 1)
  }

  /** Formatting the value of a digit run with the run's own width gives the run back. */
  lemma {:induction false} PaddedNumberIn(s: string, i: int, j: int)
    requires DigitsBetween(s, i, j)
    ensures Padded(NumberIn(s, i, j), j - i) == s[i..j]
    decreases j - i
  {
    if j > i {
      var n := NumberIn(s, i, j);
      assert n / 10 == NumberIn(s, i, j - 1) && n % 10 == DigitValue(s[j - 1]);
      assert DigitAt(s, j - 1);
      PaddedNumberIn(s, i, j - 1);
      assert s[i..j] == s[i..j - 1] + [s[j - 1]];
    }
  }

  /** Parsing a zero-padded number gives the number back when it fits in the width. */
  lemma {:induction false} NumberInPadded(n: nat, width: nat, bound: nat)
    requires bound == Pow10(width) && n < bound
    ensures NumberIn(Padded(n, width), 0, width) == n
  {
    if width > 0 {
      var r := Padded(n, width);
      var q := Padded(n / 10, width - 1);
      NumberInPadded(n / 10, width - 1, Pow10(width - 1));
      PaddedDigits(n / 10, width - 1);
      NumberInSame(q, r, 0, width - 1, 0);
    }
  }

  /** The first `>` at or after index `i`, as the engine finds it when `[^>]*>` is matched from `i`. */
  function FirstGt(s: string, i: nat): (r: Option<nat>)
    requires i <= |s|
    ensures r.Some? ==> r.value < |s|
    decreases |s| - i
  {
    if i == |s| then None
    else if s[i] == '>' then Some(i)
    else FirstGt(s, i + 1)
  }

  /** The search stops at a `>`, and passes over no other. */
  lemma {:induction false} FirstGtSound(s: string, i: nat, g: nat)
    requires i <= |s| && FirstGt(s, i) == Some(g)
    ensures i <= g && GtAt(s, g) && NoGt(s, i, g)
    decreases |s| - i
  {
    if s[i] != '>' {
      FirstGtSound(s, i + 1, g);
    }
  }

  /** A `[^>]*` run from `i` that is followed by `>` at `j` ends at the first `>`. */
  lemma {:induction false} FirstGtForced(s: string, i: nat, j: nat)
    requires NoGt(s, i, j) && GtAt(s, j)
    ensures FirstGt(s, i) == Some(j)
    decreases j - i
  {
    if i < j {
      assert !GtAt(s, i);
      FirstGtForced(s, i + 1, j);
    }
  }

  /** A `>` at or after `i` lies at or after the end of every `[^>]*` run from `i`. */
  lemma {:induction false} NoGtBefore(s: string, i: int, x: int, y: int)
    requires NoGt(s, i, x) && GtAt(s, y) && i <= y
    ensures x <= y
  {
  }

  /** The end of the longest run of digits starting at `i` (greedy `\d+` or `\d*`). */
  function DigitsEnd(s: string, i: nat): (j: nat)
    requires i <= |s|
    ensures i <= j <= |s|
    decreases |s| - i
  {
    if i < |s| && IsDigit(s[i]) then DigitsEnd(s, i + 1) else i
  }

  /** The greedy run holds only digits and stops at a non-digit or at the end. */
  lemma {:induction false} DigitsEndSound(s: string, i: nat)
    requires i <= |s|
    ensures DigitsBetween(s, i, DigitsEnd(s, i))
    ensures DigitsEnd(s, i) < |s| ==> !DigitAt(s, DigitsEnd(s, i))
    decreases |s| - i
  {
    if i < |s| && IsDigit(s[i]) {
      DigitsEndSound(s, i + 1);
      assert DigitAt(s, i);
    }
  }

  /** The start of the longest run of digits ending just before `j`. */
  function DigitsStart(s: string, j: nat): (i: nat)
    requires j <= |s|
    ensures i <= j
  {
    if j > 0 && IsDigit(s[j - 1]) then DigitsStart(s, j - 1) else j
  }

  /** The run found backwards holds only digits and stops at a non-digit or at the start. */
  lemma {:induction false} DigitsStartSound(s: string, j: nat)
    requires j <= |s|
    ensures DigitsBetween(s, DigitsStart(s, j), j)
    ensures DigitsStart(s, j) > 0 ==> !DigitAt(s, DigitsStart(s, j) - 1)
  {
    if j > 0 && IsDigit(s[j - 1]) {
      DigitsStartSound(s, j - 1);
      assert DigitAt(s, j - 1);
    }
  }

  /** A digit run bounded by a non-digit on the right is the greedy run. */
  lemma {:induction false} DigitsEndForced(s: string, i: nat, j: nat)
    requires DigitsIn(s, i, j) && j < |s| && !DigitAt(s, j)
    ensures DigitsEnd(s, i) == j
    decreases j - i
  {
    assert DigitAt(s, i);
    if i + 1 < j {
      DigitsEndForced(s, i + 1, j);
    }
  }

  /** A digit run bounded by a non-digit on the left is the longest run ending at its end. */
  lemma {:induction false} DigitsStartForced(s: string, i: nat, j: nat)
    requires DigitsIn(s, i, j) && i > 0 && !DigitAt(s, i - 1)
    ensures DigitsStart(s, j) == i
    decreases j - i
  {
    assert DigitAt(s, j - 1);
    if i < j - 1 {
      DigitsStartForced(s, i, j - 1);
    }
  }

  /** A literal without `>` leaves a `[^>]*` run unbroken. */
  lemma {:induction false} NoGtAcrossLit(s: string, i: int, a: int, w: string)
    requires NoGt(s, i, a) && LitAt(s, a, w) && '>' !in w
    ensures NoGt(s, i, a + |w|)
  {
    forall k | a <= k < a + |w|
      ensures !GtAt(s, k)
    {
      assert s[a + (k - a)] == w[k - a];
    }
  }

  lemma {:induction false} NoGtJoin(s: string, i: int, j: int, k: int)
    requires NoGt(s, i, j) && NoGt(s, j, k)
    ensures NoGt(s, i, k)
  {
  }

  /** ASCII lower-casing of one character; every other character is kept. */
  function LowerChar(c: char): (r: char)
    ensures 'A' <= c <= 'Z' ==> r as int == c as int + 32
    ensures !('A' <= c <= 'Z') ==> r == c
  {
    if 'A' <= c <= 'Z' then (c as int + 32) as char else c
  }

  /** Python's `s.lower()` restricted to ASCII letters. */
  function Lower(s: string): (r: string)
    ensures |r| == |s| && forall i | 0 <= i < |s| :: r[i] == LowerChar(s[i])
  {
    seq(|s|, i requires 0 <= i < |s| => LowerChar(s[i]))
  }

  /** Python's `s.split(sep)[0]`: everything before the first `sep`. */
  function BeforeFirst(s: string, sep: char): (r: string)
    ensures r <= s && sep !in r
    ensures |r| < |s| ==> s[|r|] == sep
  {
    if s == [] then []
    else if s[0] == sep then []
    else [s[0]] + BeforeFirst(s[1..], sep)
  }

  /** Python's `s.endswith(w)`. */
  predicate EndsWith(s: string, w: string) {
    |w| <= |s| && s[|s| - |w|..] == w
  }
}
