/**
 * The scroll cursor of the follow feed. A feed page is read with
 * `ZREVRANGEBYSCORE feed max 0 LIMIT offset 3`; the reply's last score and
 * the number of entries carrying it become the (max, offset) of the next
 * page. Entries here are the feed read highest score first, with positive
 * scores (millisecond clocks).
 */
module FeedCursor {
  import opened SortedSet

  const PAGE: nat := 3

  /** The scores of a page. */
  function Scores(tuples: seq<Scored>): (r: seq<int>)
    ensures |r| == |tuples| && forall i :: 0 <= i < |tuples| ==> r[i] == tuples[i].1
  {
    seq(|tuples|, i requires 0 <= i < |tuples| => tuples[i].1)
  }

  /** How many elements at the end of `s` equal `v`. */
  function RunLength(s: seq<int>, v: int): (n: nat)
    ensures n <= |s|
    decreases |s|
  {
    if s == [] || s[|s| - 1] != v then 0 else 1 + RunLength(s[..|s| - 1], v)
  }

  /** The run is the maximal block of trailing elements equal to `v`. */
  lemma {:induction false} RunLengthMaximal(s: seq<int>, v: int)
    ensures forall i :: |s| - RunLength(s, v) <= i < |s| ==> s[i] == v
    ensures RunLength(s, v) < |s| ==> s[|s| - RunLength(s, v) - 1] != v
    decreases |s|
  {
    if s != [] && s[|s| - 1] == v {
      var init := s[..|s| - 1];
      RunLengthMaximal(init, v);
      assert forall i :: 0 <= i < |init| ==> init[i] == s[i];
    }
  }

  /** The offset the cursor loop ends with for a page with these scores. */
  function CursorOffset(scores: seq<int>): int {
    if scores == [] then 1
    else
      var last := scores[|scores| - 1];
      var run := RunLength(scores, last);
      run + (if run == |scores| && last == 0 then 1 else 0)
  }

  /** On a page whose last score is positive, the offset is the length of its trailing run of that score. */
  lemma CursorOffsetPositive(scores: seq<int>)
    requires scores != [] && scores[|scores| - 1] > 0
    ensures var last := scores[|scores| - 1];
            && CursorOffset(scores) == RunLength(scores, last) >= 1
            && (forall i :: |scores| - CursorOffset(scores) <= i < |scores| ==> scores[i] == last)
            && (CursorOffset(scores) < |scores| ==> scores[|scores| - CursorOffset(scores) - 1] != last)
  {
    RunLengthMaximal(scores, scores[|scores| - 1]);
  }

  lemma RunLengthStep(s: seq<int>, x: int, v: int)
    ensures RunLength(s + [x], v) == if x == v then RunLength(s, v) + 1 else 0
  {
    assert (s + [x])[..|s|] == s;
  }

  // ---------------------------------------------------------------------
  // Where a cursor points
  // ---------------------------------------------------------------------

  predicate Positive(s: seq<Scored>) {
    forall i :: 0 <= i < |s| ==> s[i].1 > 0
  }

  /** How many leading entries score above `hi`. */
  function Above(s: seq<Scored>, hi: int): (n: nat)
    ensures n <= |s|
    decreases |s|
  {
    if s == [] || s[0].1 <= hi then 0 else 1 + Above(s[1..], hi)
  }

  /** In a descending list the entries above `hi` are exactly the first `Above(s, hi)`. */
  lemma {:induction false} AboveSplit(s: seq<Scored>, hi: int)
    requires ScoresDescend(s)
    ensures forall i :: 0 <= i < Above(s, hi) ==> s[i].1 > hi
    ensures forall i :: Above(s, hi) <= i < |s| ==> s[i].1 <= hi
    decreases |s|
  {
    if s != [] && s[0].1 > hi {
      AboveSplit(s[1..], hi);
      assert forall i :: 1 <= i < |s| ==> s[i] == s[1..][i - 1];
    }
  }

  /** `j` is the place where a descending list drops to `hi` or below. */
  lemma {:induction false} AboveAt(s: seq<Scored>, hi: int, j: nat)
    requires ScoresDescend(s) && j <= |s|
    requires forall i :: 0 <= i < j ==> s[i].1 > hi
    requires j < |s| ==> s[j].1 <= hi
    ensures Above(s, hi) == j
    decreases j
  {
    if j > 0 {
      AboveAt(s[1..], hi, j - 1);
    }
  }

  lemma {:induction false} ScoreBetweenAll(s: seq<Scored>, lo: int, hi: int)
    requires forall i :: 0 <= i < |s| ==> lo <= s[i].1 <= hi
    ensures ScoreBetween(s, lo, hi) == s
    decreases |s|
  {
    if s != [] {
      ScoreBetweenAll(s[1..], lo, hi);
    }
  }

  /** The positive entries scored at most `hi` are the suffix after the ones above it. */
  lemma {:induction false} ScoreBetweenSuffix(s: seq<Scored>, hi: int)
    requires ScoresDescend(s) && Positive(s)
    ensures ScoreBetween(s, 0, hi) == s[Above(s, hi)..]
    decreases |s|
  {
    if s != [] {
      if s[0].1 <= hi {
        ScoreBetweenAll(s, 0, hi);
      } else {
        ScoreBetweenSuffix(s[1..], hi);
        assert s[1..][Above(s[1..], hi)..] == s[Above(s, hi)..];
      }
    }
  }

  /**
   * A cursor (max, offset) stands at position `p` of the feed: it skips the
   * entries above `max` and then `offset` entries, all of them scored `max`.
   */
  predicate CursorAt(s: seq<Scored>, max: int, offset: int, p: int) {
    && offset >= 0
    && p == Above(s, max) + offset
    && p <= |s|
    && forall i :: Above(s, max) <= i < p ==> s[i].1 == max
  }

  function Min(a: int, b: int): int {
    if a < b then a else b
  }

  /** The first page of a feed is read with offset 0 from any max. */
  lemma FirstCursor(s: seq<Scored>, max: int)
    ensures CursorAt(s, max, 0, Above(s, max))
  {
  }

  /** The page a cursor reads is the next (up to) three entries from where it stands. */
  lemma PageAtCursor(z: ZSet, max: int, offset: nat, p: nat)
    requires Positive(Descending(z)) && CursorAt(Descending(z), max, offset, p)
    ensures RevRangeByScore(z, 0, max, offset, PAGE) == Descending(z)[p..Min(p + PAGE, |z|)]
  {
    var s := Descending(z);
    ScoreBetweenSuffix(s, max);
    WindowOfSuffix(s, Above(s, max), offset, PAGE);
  }

  /** A window of a suffix is a slice of the whole. */
  lemma WindowOfSuffix(s: seq<Scored>, a: nat, offset: nat, count: nat)
    requires a + offset <= |s|
    ensures Window(s[a..], offset, count) == s[a + offset..Min(a + offset + count, |s|)]
  {
  }

  // ---------------------------------------------------------------------
  // The next cursor
  // ---------------------------------------------------------------------

  /**
   * The next offset as intended: the entries of the page scored with its last
   * score, plus, when that score is still `max`, the `offset` entries scored
   * `max` the cursor had already skipped.
   */
  function IntendedOffset(scores: seq<int>, max: int, offset: int): int {
    if scores != [] && scores[|scores| - 1] == max then offset + CursorOffset(scores) else CursorOffset(scores)
  }

  /** Facts about a non-empty page read at a cursor. */
  lemma PageFacts(s: seq<Scored>, max: int, offset: int, p: nat, k: nat)
    requires ScoresDescend(s) && Positive(s) && CursorAt(s, max, offset, p)
    requires 0 < k && p + k <= |s|
    ensures var run := CursorOffset(Scores(s[p..p + k]));
            var m := s[p + k - 1].1;
            && 1 <= run <= k
            && (forall i :: p + k - run <= i < p + k ==> s[i].1 == m)
            && (forall i :: p <= i < p + k - run ==> s[i].1 > m)
            && (forall i :: p <= i < p + k ==> s[i].1 <= max)
  {
    var page := s[p..p + k];
    var scores := Scores(page);
    var m := s[p + k - 1].1;
    assert scores[k - 1] == m;
    CursorOffsetPositive(scores);
    var run := CursorOffset(scores);
    AboveSplit(s, max);
    forall i | p + k - run <= i < p + k ensures s[i].1 == m {
      assert scores[i - p] == s[i].1;
    }
    if run < k {
      assert scores[k - run - 1] == s[p + k - run - 1].1;
      forall i | p <= i < p + k - run ensures s[i].1 > m {
        assert s[i].1 >= s[p + k - run - 1].1;
      }
    }
  }

  /**
   * With the intended offset, the cursor after a page stands right after
   * that page: successive pages list the feed without gaps or repeats.
   */
  lemma IntendedCursorAdvances(s: seq<Scored>, max: int, offset: int, p: nat)
    requires ScoresDescend(s) && Positive(s) && CursorAt(s, max, offset, p) && p < |s|
    ensures var k := Min(PAGE, |s| - p);
            var page := s[p..p + k];
            CursorAt(s, page[k - 1].1, IntendedOffset(Scores(page), max, offset), p + k)
  {
    var k := Min(PAGE, |s| - p);
    var page := s[p..p + k];
    var scores := Scores(page);
    var m := page[k - 1].1;
    assert scores[k - 1] == m;
    PageFacts(s, max, offset, p, k);
    var run := CursorOffset(scores);
    var a := Above(s, max);
    AboveSplit(s, max);
    if m == max {
      var top := s[p].1;
      assert p < p + k - run ==> top > m;
      assert run == k;
    } else {
      var j := p + k - run;
      assert m < max;
      forall i | 0 <= i < j ensures s[i].1 > m {
        if i < p && a <= i {
          assert s[i].1 == max;
        }
      }
      AboveAt(s, m, j);
    }
  }

  /**
   * The same on a feed: the page read at a cursor standing at `p` is the
   * next slice of the feed, and the intended next cursor stands right after it.
   */
  lemma FeedPagesAdvance(z: ZSet, max: int, offset: nat, p: nat)
    requires Positive(Descending(z)) && CursorAt(Descending(z), max, offset, p) && p < |z|
    ensures var page := RevRangeByScore(z, 0, max, offset, PAGE);
            && page == Descending(z)[p..Min(p + PAGE, |z|)]
            && page != []
            && CursorAt(Descending(z), page[|page| - 1].1, IntendedOffset(Scores(page), max, offset), p + |page|)
  {
    PageAtCursor(z, max, offset, p);
    IntendedCursorAdvances(Descending(z), max, offset, p);
  }

  /**
   * As written, when a whole page is scored `max` and the cursor had skipped
   * `offset > 0` entries, the next cursor stands `offset` entries before the
   * end of the page: the next page starts with entries already returned.
   */
  lemma AsWrittenCursorRepeats(s: seq<Scored>, max: int, offset: int, p: nat)
    requires ScoresDescend(s) && Positive(s) && CursorAt(s, max, offset, p) && p < |s|
    requires offset > 0 && s[p + Min(PAGE, |s| - p) - 1].1 == max
    ensures var k := Min(PAGE, |s| - p);
            var page := s[p..p + k];
            CursorAt(s, max, CursorOffset(Scores(page)), p + k - offset)
            && p + k - offset < p + k
  {
    var k := Min(PAGE, |s| - p);
    IntendedCursorAdvances(s, max, offset, p);
    var page := s[p..p + k];
    assert page[k - 1].1 == max;
  }

  /**
   * Four entries of one score read from the top: the second page (cursor
   * (100, 3)) holds the last entry, and the cursor it hands back, (100, 1),
   * stands at position 1, so the third page repeats "c" and "b".
   */
  lemma AsWrittenCursorExample()
    ensures var s := [("d", 100), ("c", 100), ("b", 100), ("a", 100)];
            && CursorAt(s, 100, 3, 3)
            && CursorOffset(Scores(s[3..4])) == 1
            && CursorAt(s, 100, 1, 1)
            && s[1..4][..2] == s[..3][1..]
  {
    var s := [("d", 100), ("c", 100), ("b", 100), ("a", 100)];
    assert Above(s, 100) == 0;
    assert Scores(s[3..4]) == [100];
    assert RunLength([100], 100) == 1 + RunLength([], 100);
  }
}
