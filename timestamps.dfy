/**
 * `extract_timestamp_from_filename` and the date key of `append_data`: the
 * first `(\d{8})_(\d{6})` of the file name is read with
 * `strptime("%Y%m%d_%H%M%S")` and written back with `isoformat()`; without
 * such a token the current time is used. The date key of a timestamp is the
 * part before its `T`.
 */
module Timestamps {
  import opened Wrappers
  import opened Text
  import opened Search

  /** A `datetime` value; the fields are only meaningful when `Valid` holds. */
  datatype DateTime = DateTime(year: nat, month: nat, day: nat, hour: nat, minute: nat, second: nat, microsecond: nat)
  {
    /** What the `datetime` constructor accepts (years 1 to 9999, no leap seconds). */
    predicate Valid() {
      && 1 <= year <= 9999 && 1 <= month <= 12 && 1 <= day <= DaysInMonth(year, month)
      && hour < 24 && minute < 60 && second < 60 && microsecond < 1000000
    }
  }

  /** The Gregorian leap-year rule. */
  predicate IsLeap(y: nat) {
    y % 4 == 0 && (y % 100 != 0 || y % 400 == 0)
  }

  function DaysInMonth(y: nat, m: nat): (d: nat)
    requires 1 <= m <= 12
    ensures 28 <= d <= 31
  {
    if m == 2 then (if IsLeap(y) then 29 else 28)
    else if m == 4 || m == 6 || m == 9 || m == 11 then 30
    else 31
  }

  /** `(\d{8})_(\d{6})` occurs at `p`. */
  predicate TokenAt(s: string, p: int) {
    0 <= p && p + 15 <= |s| && DigitsBetween(s, p, p + 8) && s[p + 8] == '_' && DigitsBetween(s, p + 9, p + 15)
  }

  /**
   * The fields `strptime("%Y%m%d_%H%M%S")` reads from the token at `p`: four
   * digits of year and two each of month, day, hour, minute and second (on
   * fourteen digits, every other split leaves digits unconverted).
   */
  function TokenFields(s: string, p: nat): DateTime
    requires TokenAt(s, p)
  {
    DateTime(NumberIn(s, p, p + 4), NumberIn(s, p + 4, p + 6), NumberIn(s, p + 6, p + 8),
             NumberIn(s, p + 9, p + 11), NumberIn(s, p + 11, p + 13), NumberIn(s, p + 13, p + 15), 0)
  }

  /** The outcome of trying the token pattern at `p`. */
  function TokenTry(s: string, p: nat): Option<DateTime> {
    if TokenAt(s, p) then Some(TokenFields(s, p)) else None
  }

  /** `re.search(r'(\d{8})_(\d{6})', s)`, read as a date and time. */
  function FindToken(s: string): Option<DateTime> {
    FirstHit((p: nat) => TokenTry(s, p), 0, |s|)
  }

  /** The date part of `isoformat()`: `YYYY-MM-DD`. */
  function IsoDate(d: DateTime): (r: string)
    ensures |r| == 10
  {
    Padded(d.year, 4) + "-" + Padded(d.month, 2) + "-" + Padded(d.day, 2)
  }

  /** `datetime.isoformat()`: the microseconds are written only when they are not zero. */
  function IsoFormat(d: DateTime): string {
    IsoDate(d) + "T" + Padded(d.hour, 2) + ":" + Padded(d.minute, 2) + ":" + Padded(d.second, 2)
    + (if d.microsecond == 0 then "" else "." + Padded(d.microsecond, 6))
  }

  /**
   * `extract_timestamp_from_filename`: the ISO timestamp of the first token,
   * an error (the `ValueError` of `strptime`) when that token is not a real
   * date and time, and the ISO form of `now` when there is no token.
   */
  function ExtractTimestamp(filename: string, now: DateTime): Result<string, DateTime> {
    match FindToken(filename)
    case None => Ok(IsoFormat(now))
    case Some(d) => if d.Valid() then Ok(IsoFormat(d)) else Err(d)
  }

  /** `timestamp.split('T')[0]`. */
  function DateKey(timestamp: string): string {
    BeforeFirst(timestamp, 'T')
  }

  /** The token the search reports is the first one in the name. */
  lemma {:induction false} FindTokenSound(s: string, d: DateTime) returns (p: nat)
    requires FindToken(s) == Some(d)
    ensures TokenAt(s, p) && d == TokenFields(s, p)
    ensures forall q: nat | q < p :: !TokenAt(s, q)
  {
    var f := (q: nat) => TokenTry(s, q);
    p := FirstHitSound(f, 0, |s|, d);
    forall q: nat | q < p
      ensures !TokenAt(s, q)
    {
      assert f(q) == None;
    }
  }

  /** When the search reports nothing, the name has no token at all. */
  lemma {:induction false} FindTokenNone(s: string, p: int)
    requires FindToken(s) == None
    ensures !TokenAt(s, p)
  {
    if TokenAt(s, p) {
      FirstHitNone((q: nat) => TokenTry(s, q), 0, |s|, p);
    }
  }

  /** The first token of the name is the one the search reports. */
  lemma {:induction false} FindTokenFirst(s: string, p: nat)
    requires TokenAt(s, p) && forall q: nat | q < p :: !TokenAt(s, q)
    ensures FindToken(s) == Some(TokenFields(s, p))
  {
    var f := (q: nat) => TokenTry(s, q);
    assert forall q: nat | 0 <= q < p :: f(q) == None;
    FirstHitLeftmost(f, 0, |s|, p, TokenFields(s, p));
  }

  /** The timestamp of a name with a valid first token. */
  lemma {:induction false} ExtractTimestampOfToken(s: string, now: DateTime, p: nat)
    requires TokenAt(s, p) && forall q: nat | q < p :: !TokenAt(s, q)
    ensures TokenFields(s, p).Valid() ==> ExtractTimestamp(s, now) == Ok(IsoFormat(TokenFields(s, p)))
    ensures !TokenFields(s, p).Valid() ==> ExtractTimestamp(s, now) == Err(TokenFields(s, p))
  {
    FindTokenFirst(s, p);
  }

  /** A name without a token is stamped with the current time. */
  lemma {:induction false} ExtractTimestampNoToken(s: string, now: DateTime)
    requires forall q: nat :: !TokenAt(s, q)
    ensures ExtractTimestamp(s, now) == Ok(IsoFormat(now))
  {
    if FindToken(s).Some? {
      var p := FindTokenSound(s, FindToken(s).value);
    }
  }

  /** A timestamp taken from a name is the first token's digits, punctuated the ISO way. */
  lemma {:induction false} IsoFormatOfToken(s: string, p: nat)
    requires TokenAt(s, p)
    ensures IsoFormat(TokenFields(s, p))
      == s[p..p + 4] + "-" + s[p + 4..p + 6] + "-" + s[p + 6..p + 8] + "T"
         + s[p + 9..p + 11] + ":" + s[p + 11..p + 13] + ":" + s[p + 13..p + 15]
  {
    PaddedNumberIn(s, p, p + 4);
    PaddedNumberIn(s, p + 4, p + 6);
    PaddedNumberIn(s, p + 6, p + 8);
    PaddedNumberIn(s, p + 9, p + 11);
    PaddedNumberIn(s, p + 11, p + 13);
    PaddedNumberIn(s, p + 13, p + 15);
  }

  /** The date key of an ISO timestamp is its date part. */
  lemma {:induction false} DateKeyOfIso(d: DateTime)
    ensures DateKey(IsoFormat(d)) == IsoDate(d)
  {
    var t := IsoFormat(d);
    var r := DateKey(t);
    PaddedDigits(d.year, 4);
    PaddedDigits(d.month, 2);
    PaddedDigits(d.day, 2);
    assert t[..10] == IsoDate(d) && t[10] == 'T';
    forall k | 0 <= k < 10
      ensures t[k] != 'T'
    {
      if k < 4 {
        assert DigitAt(Padded(d.year, 4), k);
      } else if 5 <= k < 7 {
        assert DigitAt(Padded(d.month, 2), k - 5);
      } else if 8 <= k < 10 {
        assert DigitAt(Padded(d.day, 2), k - 8);
      }
    }
  }

  /** The date key of a file's timestamp is `YYYY-MM-DD` built from the first eight digits of its token. */
  lemma {:induction false} DateKeyOfToken(s: string, p: nat)
    requires TokenAt(s, p)
    ensures DateKey(IsoFormat(TokenFields(s, p))) == s[p..p + 4] + "-" + s[p + 4..p + 6] + "-" + s[p + 6..p + 8]
  {
    DateKeyOfIso(TokenFields(s, p));
    PaddedNumberIn(s, p, p + 4);
    PaddedNumberIn(s, p + 4, p + 6);
    PaddedNumberIn(s, p + 6, p + 8);
  }

  /** Reading a date key back: the year, month and day it was written from. */
  lemma {:induction false} IsoDateRoundTrip(d: DateTime)
    requires d.Valid()
    ensures NumberIn(IsoDate(d), 0, 4) == d.year
    ensures NumberIn(IsoDate(d), 5, 7) == d.month
    ensures NumberIn(IsoDate(d), 8, 10) == d.day
  {
    var k := IsoDate(d);
    var y, m, dd := Padded(d.year, 4), Padded(d.month, 2), Padded(d.day, 2);
    NumberInPadded(d.year, 4, Pow10(4));
    NumberInPadded(d.month, 2, Pow10(2));
    NumberInPadded(d.day, 2, Pow10(2));
    PaddedDigits(d.year, 4);
    PaddedDigits(d.month, 2);
    PaddedDigits(d.day, 2);
    NumberInSame(y, k, 0, 4, 0);
    NumberInSame(m, k, 0, 2, 5);
    NumberInSame(dd, k, 0, 2, 8);
  }

  /** Lower-casing a name changes neither where its tokens are nor what they read. */
  lemma {:induction false} LowerKeepsTokens(s: string)
    ensures FindToken(Lower(s)) == FindToken(s)
  {
    var t := Lower(s);
    forall q: nat | q <= |s|
      ensures TokenTry(t, q) == TokenTry(s, q)
    {
      LowerKeepsToken(s, q);
    }
    FirstHitSame((q: nat) => TokenTry(t, q), (q: nat) => TokenTry(s, q), 0, |s|);
  }

  lemma {:induction false} LowerKeepsToken(s: string, q: nat)
    ensures TokenTry(Lower(s), q) == TokenTry(s, q)
  {
    if TokenAt(s, q) || TokenAt(Lower(s), q) {
      LowerFixesToken(s, q);
      TokenSameChars(s, Lower(s), q);
    }
  }

  /** Lower-casing leaves the characters of a token alone: digits and `_` are not letters. */
  lemma {:induction false} LowerFixesToken(s: string, q: nat)
    requires TokenAt(s, q) || TokenAt(Lower(s), q)
    ensures forall k | q <= k < q + 15 :: Lower(s)[k] == s[k]
  {
    var t := Lower(s);
    forall k | q <= k < q + 15
      ensures t[k] == s[k]
    {
      if k != q + 8 {
        if TokenAt(s, q) {
          assert DigitAt(s, k);
        } else {
          assert DigitAt(t, k);
        }
      }
    }
  }

  /** Whether a token starts at `q`, and what it reads, depends only on the fifteen characters from `q`. */
  lemma {:induction false} TokenSameChars(s: string, t: string, q: nat)
    requires |t| == |s| && q + 15 <= |s| && forall k | q <= k < q + 15 :: t[k] == s[k]
    ensures TokenTry(t, q) == TokenTry(s, q)
  {
    forall k | q <= k < q + 15
      ensures DigitAt(t, k) <==> DigitAt(s, k)
    {
    }
    if TokenAt(s, q) {
      NumberInSame(s, t, q, q + 4, 0);
      NumberInSame(s, t, q + 4, q + 6, 0);
      NumberInSame(s, t, q + 6, q + 8, 0);
      NumberInSame(s, t, q + 9, q + 11, 0);
      NumberInSame(s, t, q + 11, q + 13, 0);
      NumberInSame(s, t, q + 13, q + 15, 0);
    }
  }
}
