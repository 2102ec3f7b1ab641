/**
 The historical backlink table: one record per reporting period, kept in the
 order in which it was stored. Nothing in the report sorts it; every consumer
 reads it by position.
 */
module History {

  /** A calendar date. It is carried along to label chart points and is never compared. */
  datatype Date = Date(year: int, month: int, day: int)

  /**
   The domain_authority column: a score, or no value. A record's `NA` is a
   missing cell (read as NaN); as a metric, `NA` is the 'N/A' default of an
   empty series.
   */
  datatype DomainAuthority = Score(value: int) | NA

  /** One row of the history file. */
  datatype Record = Record(
    date: Date,
    totalBacklinks: int,
    referringDomains: int,
    newBacklinks: int,
    lostBacklinks: int,
    domainAuthority: DomainAuthority)

  /** The whole table, in positional order. */
  type Series = seq<Record>

  function Min(a: int, b: int): int {
    if a <= b then a else b
  }

  /**
   The last `n` elements of `s`, or all of `s` when it is shorter: the
   positional `tail(n)` of a table. A short table is not an error.
   */
  function Trailing<T>(s: seq<T>, n: nat): (r: seq<T>)
    ensures |r| == Min(n, |s|)
    ensures s == s[..|s| - |r|] + r
  {
    if |s| <= n then s else s[|s| - n..]
  }

  /** Element `i` of a trailing window is element `|s| - |window| + i` of the series. */
  lemma TrailingAt<T>(s: seq<T>, n: nat, i: nat)
    requires i < |Trailing(s, n)|
    ensures Trailing(s, n)[i] == s[|s| - |Trailing(s, n)| + i]
  {
    var r := Trailing(s, n);
    assert s == s[..|s| - |r|] + r;
  }

  /** Taking a shorter window of a window is the same as taking it of the series. */
  lemma TrailingOfTrailing<T>(s: seq<T>, m: nat, n: nat)
    requires n <= m
    ensures Trailing(Trailing(s, m), n) == Trailing(s, n)
  {
    var w := Trailing(s, m);
    var a, b := Trailing(w, n), Trailing(s, n);
    assert |a| == |b|;
    forall i | 0 <= i < |a|
      ensures a[i] == b[i]
    {
      TrailingAt(w, n, i);
      TrailingAt(s, m, |w| - |a| + i);
      TrailingAt(s, n, i);
    }
  }

  /**
   Sliding the window by one period: the window after appending `x` is the old
   window with `x` appended and, if that overflows, its oldest element dropped.
   */
  lemma TrailingAppend<T>(s: seq<T>, x: T, n: nat)
    ensures Trailing(s + [x], n) == Trailing(Trailing(s, n) + [x], n)
  {
    var w := Trailing(s, n);
    var a, b := Trailing(s + [x], n), Trailing(w + [x], n);
    assert |a| == |b|;
    forall i | 0 <= i < |a|
      ensures a[i] == b[i]
    {
      TrailingAt(s + [x], n, i);
      TrailingAt(w + [x], n, i);
      var j := |w| + 1 - |b| + i;
      if j < |w| {
        TrailingAt(s, n, j);
      }
    }
  }

  /**
   A rolling buffer of at most `n` entries: append `x`, dropping the oldest
   entry when the buffer is already full.
   */
  function Slide<T>(w: seq<T>, x: T, n: nat): seq<T> {
    if |w| < n then w + [x] else if w == [] then [] else w[1..] + [x]
  }

  /** The buffer obtained by feeding the series into an empty rolling buffer, one period at a time. */
  function Replay<T>(s: seq<T>, n: nat): seq<T> {
    if s == [] then [] else Slide(Replay(s[..|s| - 1], n), s[|s| - 1], n)
  }

  lemma SlideIsTrailing<T>(w: seq<T>, x: T, n: nat)
    requires |w| <= n
    ensures Slide(w, x, n) == Trailing(w + [x], n)
  {
  }

  /**
   The positional tail is what a rolling buffer of `n` periods holds after
   the whole series has been fed into it.
   */
  lemma {:induction false} ReplayIsTrailing<T>(s: seq<T>, n: nat)
    ensures Replay(s, n) == Trailing(s, n)
  {
    if s != [] {
      var p, x := s[..|s| - 1], s[|s| - 1];
      assert s == p + [x];
      ReplayIsTrailing(p, n);
      SlideIsTrailing(Trailing(p, n), x, n);
      TrailingAppend(p, x, n);
    }
  }
}
