/**
 * Sorted sets of the key-value store as values: a map from member to score.
 * The store orders members by ascending score and breaks ties by comparing
 * the members' text; `Ascending` is that order, and the range queries the
 * services use (`ZRANGE key start stop` and `ZREVRANGEBYSCORE key max min
 * WITHSCORES LIMIT offset count`) are slices of it. Scores are integers here
 * (the store keeps doubles; every score the services write is a
 * millisecond clock reading).
 */
module SortedSet {

  type ZSet = map<string, int>

  /** Strict lexicographic order on texts (a proper prefix comes first). */
  predicate LexLess(a: string, b: string)
    decreases |a|
  {
    |b| > 0 && (|a| == 0 || a[0] < b[0] || (a[0] == b[0] && LexLess(a[1..], b[1..])))
  }

  lemma LexIrreflexive(a: string)
    ensures !LexLess(a, a)
  {
  }

  lemma LexAsymmetric(a: string, b: string)
    requires LexLess(a, b)
    ensures !LexLess(b, a)
  {
  }

  lemma LexTransitive(a: string, b: string, c: string)
    requires LexLess(a, b) && LexLess(b, c)
    ensures LexLess(a, c)
  {
  }

  lemma LexTotal(a: string, b: string)
    requires a != b
    ensures LexLess(a, b) || LexLess(b, a)
  {
    if |a| > 0 && |b| > 0 && a[0] == b[0] {
      assert a == [a[0]] + a[1..] && b == [b[0]] + b[1..];
      LexTotal(a[1..], b[1..]);
    }
  }

  /** Member `a` scored `sa` comes before member `b` scored `sb`. */
  predicate Before(a: string, sa: int, b: string, sb: int) {
    sa < sb || (sa == sb && LexLess(a, b))
  }

  /** `a` comes before `b` in the set's order. */
  predicate Precedes(z: ZSet, a: string, b: string)
    requires a in z && b in z
  {
    Before(a, z[a], b, z[b])
  }

  lemma BeforeTransitive(a: string, sa: int, b: string, sb: int, c: string, sc: int)
    requires Before(a, sa, b, sb) && Before(b, sb, c, sc)
    ensures Before(a, sa, c, sc)
  {
    if sa == sb == sc {
      LexTransitive(a, b, c);
    }
  }

  /** `m` is the first member of `z`. */
  predicate IsFirst(z: ZSet, m: string) {
    m in z && forall x :: x in z && x != m ==> Precedes(z, m, x)
  }

  lemma {:induction false} FirstExists(z: ZSet)
    requires |z| > 0
    ensures exists m :: IsFirst(z, m)
    decreases |z|
  {
    var k :| k in z;
    var rest := z - {k};
    assert rest.Keys == z.Keys - {k};
    if |rest| == 0 {
      assert IsFirst(z, k);
    } else {
      FirstExists(rest);
      var m :| IsFirst(rest, m);
      assert forall x :: x in rest && x != m ==> Before(m, z[m], x, z[x]);
      if Before(m, z[m], k, z[k]) {
        assert IsFirst(z, m);
      } else {
        LexTotal(k, m);
        assert Before(k, z[k], m, z[m]);
        forall x | x in z && x != k
          ensures Precedes(z, k, x)
        {
          if x != m {
            BeforeTransitive(k, z[k], m, z[m], x, z[x]);
          }
        }
        assert IsFirst(z, k);
      }
    }
  }

  lemma FirstUnique(z: ZSet)
    ensures forall m1, m2 :: IsFirst(z, m1) && IsFirst(z, m2) ==> m1 == m2
  {
    forall m1, m2 | IsFirst(z, m1) && IsFirst(z, m2)
      ensures m1 == m2
    {
      if m1 != m2 {
        assert Precedes(z, m1, m2) && Precedes(z, m2, m1);
        if z[m1] == z[m2] {
          LexAsymmetric(m1, m2);
        }
      }
    }
  }

  /** The first member of a non-empty sorted set. */
  function First(z: ZSet): (m: string)
    requires |z| > 0
    ensures IsFirst(z, m)
  {
    FirstExists(z);
    FirstUnique(z);
    var m :| IsFirst(z, m);
    m
  }

  /** A (member, score) pair as the store replies it. */
  type Scored = (string, int)

  /** Every entry of `s` is a member of `z` with its score. */
  predicate EntriesOf(z: ZSet, s: seq<Scored>) {
    forall i :: 0 <= i < |s| ==> s[i].0 in z && s[i].1 == z[s[i].0]
  }

  /** `s` is in the store's order: each entry comes before every later one. */
  predicate InOrder(s: seq<Scored>) {
    forall i, j :: 0 <= i < j < |s| ==> Before(s[i].0, s[i].1, s[j].0, s[j].1)
  }

  /** The members of `s`, in order. */
  function MembersOf(s: seq<Scored>): (r: seq<string>)
    ensures |r| == |s| && forall i :: 0 <= i < |s| ==> r[i] == s[i].0
  {
    seq(|s|, i requires 0 <= i < |s| => s[i].0)
  }

  /** All entries, first to last: ascending score, ties in text order. */
  function Ascending(z: ZSet): (s: seq<Scored>)
    ensures |s| == |z|
    decreases |z|
  {
    if |z| == 0 then []
    else
      var m := First(z);
      var rest := z - {m};
      assert rest.Keys == z.Keys - {m};
      [(m, z[m])] + Ascending(rest)
  }

  lemma {:induction false} AscendingEntries(z: ZSet)
    ensures EntriesOf(z, Ascending(z))
    decreases |z|
  {
    if |z| > 0 {
      var m := First(z);
      var rest := z - {m};
      assert rest.Keys == z.Keys - {m};
      AscendingEntries(rest);
    }
  }

  /** The entries come out in the store's order. */
  lemma {:induction false} AscendingInOrder(z: ZSet)
    ensures InOrder(Ascending(z))
    decreases |z|
  {
    if |z| > 0 {
      var m := First(z);
      var rest := z - {m};
      assert rest.Keys == z.Keys - {m};
      AscendingInOrder(rest);
      AscendingEntries(rest);
      var tail := Ascending(rest);
      var s := Ascending(z);
      assert s == [(m, z[m])] + tail;
      forall i, j | 0 <= i < j < |s|
        ensures Before(s[i].0, s[i].1, s[j].0, s[j].1)
      {
        if i == 0 {
          assert s[j] == tail[j - 1];
          assert tail[j - 1].0 in rest;
        } else {
          assert s[i] == tail[i - 1] && s[j] == tail[j - 1];
        }
      }
    }
  }

  /** Every member of the set appears. */
  lemma {:induction false} AscendingComplete(z: ZSet, x: string)
    requires x in z
    ensures exists i :: 0 <= i < |Ascending(z)| && Ascending(z)[i].0 == x
    decreases |z|
  {
    var m := First(z);
    var s := Ascending(z);
    if x == m {
      assert s[0].0 == x;
    } else {
      var rest := z - {m};
      assert rest.Keys == z.Keys - {m};
      AscendingComplete(rest, x);
      var i :| 0 <= i < |Ascending(rest)| && Ascending(rest)[i].0 == x;
      assert s[i + 1].0 == x;
    }
  }

  /** Entries in the store's order name distinct members. */
  lemma InOrderDistinct(s: seq<Scored>, i: int, j: int)
    requires InOrder(s) && 0 <= i < j < |s|
    ensures s[i].0 != s[j].0 || s[i].1 < s[j].1
  {
    LexIrreflexive(s[i].0);
  }

  /** Scores never decrease along `s`. */
  predicate ScoresAscend(s: seq<Scored>) {
    forall i, j :: 0 <= i < j < |s| ==> s[i].1 <= s[j].1
  }

  /** Scores never increase along `s`. */
  predicate ScoresDescend(s: seq<Scored>) {
    forall i, j :: 0 <= i < j < |s| ==> s[i].1 >= s[j].1
  }

  /** `ZRANGE key start stop WITHSCORES` for non-negative ranks (stop inclusive). */
  function RangeByRank(z: ZSet, start: nat, stop: nat): (r: seq<Scored>)
    ensures |r| <= stop + 1 - start || |r| == 0
    ensures start == 0 ==> |r| == if |z| < stop + 1 then |z| else stop + 1
    ensures forall i :: 0 <= i < |r| ==> start + i < |Ascending(z)| && r[i] == Ascending(z)[start + i]
    ensures EntriesOf(z, r) && ScoresAscend(r)
  {
    var s := Ascending(z);
    AscendingEntries(z);
    AscendingInOrder(z);
    var hi := if stop + 1 < |s| then stop + 1 else |s|;
    if start < hi then
      var r := s[start..hi];
      assert forall i :: 0 <= i < |r| ==> r[i] == s[start + i];
      r
    else []
  }

  /**
   * `ZRANGE key 0 stop` returns the earliest members: any member it leaves
   * out comes after every member it returns.
   */
  lemma RangeByRankEarliest(z: ZSet, stop: nat, x: string)
    requires x in z
    requires forall i :: 0 <= i < |RangeByRank(z, 0, stop)| ==> RangeByRank(z, 0, stop)[i].0 != x
    ensures forall i :: 0 <= i < |RangeByRank(z, 0, stop)| ==>
              Before(RangeByRank(z, 0, stop)[i].0, RangeByRank(z, 0, stop)[i].1, x, z[x])
  {
    var s := Ascending(z);
    var r := RangeByRank(z, 0, stop);
    AscendingEntries(z);
    AscendingInOrder(z);
    AscendingComplete(z, x);
    var k :| 0 <= k < |s| && s[k].0 == x;
    assert forall i :: 0 <= i < |r| ==> r[i] == s[i];
    assert k >= |r|;
  }

  /** A rank range lists each member at most once. */
  lemma RangeByRankDistinct(z: ZSet, start: nat, stop: nat)
    ensures var r := RangeByRank(z, start, stop);
            forall i, j :: 0 <= i < j < |r| ==> r[i].0 != r[j].0
  {
    var s := Ascending(z);
    var r := RangeByRank(z, start, stop);
    AscendingEntries(z);
    AscendingInOrder(z);
    if r != [] {
      assert forall i :: 0 <= i < |r| ==> r[i] == s[start + i];
      forall i, j | 0 <= i < j < |r| ensures r[i].0 != r[j].0 {
        InOrderDistinct(s, start + i, start + j);
      }
    }
  }

  /** `ZRANGE key 0 stop` on a set of at most stop + 1 members returns all of them. */
  lemma RangeByRankAll(z: ZSet, stop: nat)
    requires |z| <= stop + 1
    ensures RangeByRank(z, 0, stop) == Ascending(z)
  {
  }

  /** The entries of `s` scored within [lo, hi], in the order of `s`. */
  function ScoreBetween(s: seq<Scored>, lo: int, hi: int): (r: seq<Scored>)
    ensures |r| <= |s|
    ensures forall i :: 0 <= i < |r| ==> lo <= r[i].1 <= hi && r[i] in s
  {
    if s == [] then []
    else
      var tail := ScoreBetween(s[1..], lo, hi);
      if lo <= s[0].1 <= hi then [s[0]] + tail else tail
  }

  lemma ScoreBetweenEntries(z: ZSet, s: seq<Scored>, lo: int, hi: int)
    requires EntriesOf(z, s)
    ensures EntriesOf(z, ScoreBetween(s, lo, hi))
  {
    var r := ScoreBetween(s, lo, hi);
    forall i | 0 <= i < |r| ensures r[i].0 in z && r[i].1 == z[r[i].0] {
      var k :| 0 <= k < |s| && s[k] == r[i];
    }
  }

  lemma {:induction false} ScoreBetweenDescends(s: seq<Scored>, lo: int, hi: int)
    requires ScoresDescend(s)
    ensures ScoresDescend(ScoreBetween(s, lo, hi))
    decreases |s|
  {
    if s != [] {
      ScoreBetweenDescends(s[1..], lo, hi);
      var tail := ScoreBetween(s[1..], lo, hi);
      forall i | 0 <= i < |tail| ensures s[0].1 >= tail[i].1 {
        var k :| 0 <= k < |s[1..]| && s[1..][k] == tail[i];
        assert s[k + 1] == tail[i];
      }
    }
  }

  /** All entries, last to first. */
  function Descending(z: ZSet): (s: seq<Scored>)
    ensures |s| == |z|
    ensures EntriesOf(z, s) && ScoresDescend(s)
    ensures forall i, j :: 0 <= i < j < |s| ==> s[i].0 != s[j].0
  {
    var a := Ascending(z);
    AscendingEntries(z);
    AscendingInOrder(z);
    var d := seq(|a|, k requires 0 <= k < |a| => a[|a| - 1 - k]);
    assert ScoresDescend(d) by {
      forall i, j | 0 <= i < j < |d| ensures d[i].1 >= d[j].1 {
        assert d[i] == a[|a| - 1 - i] && d[j] == a[|a| - 1 - j];
      }
    }
    assert forall i, j :: 0 <= i < j < |d| ==> d[i].0 != d[j].0 by {
      forall i, j | 0 <= i < j < |d| ensures d[i].0 != d[j].0 {
        InOrderDistinct(a, |a| - 1 - j, |a| - 1 - i);
      }
    }
    d
  }

  /** At most `count` entries of `s`, starting at position `offset` (`LIMIT offset count`). */
  function Window(s: seq<Scored>, offset: nat, count: nat): (r: seq<Scored>)
    ensures |r| <= count
    ensures forall i :: 0 <= i < |r| ==> offset + i < |s| && r[i] == s[offset + i]
  {
    if offset >= |s| then []
    else if offset + count <= |s| then s[offset..offset + count]
    else s[offset..]
  }

  /**
   * `ZREVRANGEBYSCORE key hi lo WITHSCORES LIMIT offset count`: the entries
   * scored within [lo, hi], highest first, after skipping `offset` of them,
   * at most `count`.
   */
  function RevRangeByScore(z: ZSet, lo: int, hi: int, offset: nat, count: nat): (r: seq<Scored>)
    ensures |r| <= count
    ensures EntriesOf(z, r) && ScoresDescend(r)
    ensures forall i :: 0 <= i < |r| ==> lo <= r[i].1 <= hi
  {
    var matching := ScoreBetween(Descending(z), lo, hi);
    ScoreBetweenEntries(z, Descending(z), lo, hi);
    ScoreBetweenDescends(Descending(z), lo, hi);
    Window(matching, offset, count)
  }
}
