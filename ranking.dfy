/**
 * `sorted(scores.items(), key=lambda x: x[1], reverse=True)` and the top-N
 * selection that both emotion services build on it.
 *
 * Python's sort is stable, also with `reverse=True`: emotions with equal
 * scores stay in table order. So the ranking is the one ordering of the
 * items in which every item comes before the next by `Before`.
 */
module Ranking {
  import opened Emotions

  type Item = (Emotion, real)

  datatype TopEntry = TopEntry(emotion: Emotion, score: real, category: Category, intensity: Intensity)

  /** `scores.items()` for a score vector aligned with the table. */
  function Items(v: seq<real>): (items: seq<Item>)
    requires IsScores(v)
    ensures |items| == N
    ensures forall i | 0 <= i < N :: items[i] == (All()[i], v[i])
  {
    seq(N, i requires 0 <= i < N => (All()[i], v[i]))
  }

  /** `a` is ranked before `b`: a higher score, or an equal score and an earlier table position. */
  predicate Before(a: Item, b: Item) {
    a.1 > b.1 || (a.1 == b.1 && Index(a.0) < Index(b.0))
  }

  predicate Sorted(t: seq<Item>) {
    forall i, j | 0 <= i < j < |t| :: Before(t[i], t[j])
  }

  predicate InTableOrder(t: seq<Item>) {
    forall i, j | 0 <= i < j < |t| :: Index(t[i].0) < Index(t[j].0)
  }

  /** Places `x` in front of the first item whose score does not exceed its own. */
  function Insert(x: Item, t: seq<Item>): (r: seq<Item>)
    ensures multiset(r) == multiset([x] + t)
  {
    if t == [] || t[0].1 <= x.1 then [x] + t
    else
      assert t == [t[0]] + t[1..];
      [t[0]] + Insert(x, t[1..])
  }

  /** Stable sort by descending score. */
  function SortDesc(s: seq<Item>): (r: seq<Item>)
    ensures multiset(r) == multiset(s)
  {
    if s == [] then []
    else
      assert s == [s[0]] + s[1..];
      Insert(s[0], SortDesc(s[1..]))
  }

  lemma SortedTail(t: seq<Item>)
    requires Sorted(t) && t != []
    ensures Sorted(t[1..])
  {
    forall i, j | 0 <= i < j < |t[1..]| ensures Before(t[1..][i], t[1..][j]) {
      assert t[1..][i] == t[i + 1] && t[1..][j] == t[j + 1];
    }
  }

  /** An item placed in front of a sorted list that it precedes entirely. */
  lemma SortedCons(x: Item, t: seq<Item>)
    requires Sorted(t)
    requires forall y | y in t :: Before(x, y)
    ensures Sorted([x] + t)
  {
    var r := [x] + t;
    forall i, j | 0 <= i < j < |r| ensures Before(r[i], r[j]) {
      if i == 0 {
        assert r[j] == t[j - 1] && r[j] in t;
      } else {
        assert r[i] == t[i - 1] && r[j] == t[j - 1];
      }
    }
  }

  lemma InsertMembers(x: Item, t: seq<Item>, y: Item)
    requires y in Insert(x, t)
    ensures y == x || y in t
  {
    assert y in multiset(Insert(x, t));
  }

  lemma {:induction false} InsertSorted(x: Item, t: seq<Item>)
    requires Sorted(t)
    requires forall i | 0 <= i < |t| :: Index(x.0) < Index(t[i].0)
    ensures Sorted(Insert(x, t))
  {
    if t == [] || t[0].1 <= x.1 {
      forall y | y in t ensures Before(x, y) {
        var j :| 0 <= j < |t| && t[j] == y;
        assert j > 0 ==> Before(t[0], t[j]);
      }
      SortedCons(x, t);
    } else {
      var t' := t[1..];
      SortedTail(t);
      InsertSorted(x, t');
      var ins := Insert(x, t');
      forall y | y in ins ensures Before(t[0], y) {
        InsertMembers(x, t', y);
        if y != x {
          var m :| 0 <= m < |t'| && t'[m] == y;
          assert t[m + 1] == y;
        }
      }
      SortedCons(t[0], ins);
    }
  }

  /** The ranking of items listed in table order is sorted by `Before`. */
  lemma {:induction false} SortDescSorted(s: seq<Item>)
    requires InTableOrder(s)
    ensures Sorted(SortDesc(s))
  {
    if s != [] {
      var s' := s[1..];
      assert InTableOrder(s') by {
        forall i, j | 0 <= i < j < |s'| ensures Index(s'[i].0) < Index(s'[j].0) {
          assert s'[i] == s[i + 1] && s'[j] == s[j + 1];
        }
      }
      SortDescSorted(s');
      var t := SortDesc(s');
      forall i | 0 <= i < |t| ensures Index(s[0].0) < Index(t[i].0) {
        assert t[i] in multiset(t);
        assert t[i] in multiset(s');
        var m :| 0 <= m < |s'| && s'[m] == t[i];
        assert s[m + 1] == t[i];
      }
      InsertSorted(s[0], t);
    }
  }

  /** The ranking of a score vector: sorted by descending score, ties in table order, a permutation of the items. */
  function Ranked(v: seq<real>): (r: seq<Item>)
    requires IsScores(v)
    ensures |r| == N
    ensures multiset(r) == multiset(Items(v))
    ensures Sorted(r)
  {
    var items := Items(v);
    assert InTableOrder(items) by {
      forall i, j | 0 <= i < j < |items| ensures Index(items[i].0) < Index(items[j].0) {
        IndexOfAll(i);
        IndexOfAll(j);
      }
    }
    SortDescSorted(items);
    var r := SortDesc(items);
    assert |r| == |multiset(r)| == |multiset(items)| == N;
    r
  }

  function EntryOf(it: Item): TopEntry {
    TopEntry(it.0, it.1, CategoryOf(it.0), IntensityOf(it.0))
  }

  /** The entries for the items whose score exceeds `threshold`, in order. */
  function Keep(items: seq<Item>, threshold: real): seq<TopEntry> {
    if items == [] then []
    else
      var n := |items| - 1;
      Keep(items[..n], threshold) + (if items[n].1 > threshold then [EntryOf(items[n])] else [])
  }

  function Min(a: nat, b: nat): nat {
    if a < b then a else b
  }

  /** What `_get_top_emotions(scores, top_n)` returns for a given threshold. */
  function TopSpec(v: seq<real>, topN: nat, threshold: real): seq<TopEntry>
    requires IsScores(v)
  {
    Keep(Ranked(v)[..Min(topN, N)], threshold)
  }

  /**
   * `_get_top_emotions`: walk the first `top_n` items of the ranking and keep
   * those above the threshold, with their category and intensity.
   */
  method TopEmotions(v: seq<real>, topN: nat, threshold: real) returns (top: seq<TopEntry>)
    requires IsScores(v)
    ensures top == TopSpec(v, topN, threshold)
  {
    var ranked := Ranked(v);
    var k := Min(topN, N);
    var head := ranked[..k];
    top := [];
    for i := 0 to k
      invariant top == Keep(head[..i], threshold)
    {
      assert head[..i + 1][..i] == head[..i];
      if head[i].1 > threshold {
        top := top + [TopEntry(head[i].0, head[i].1, CategoryOf(head[i].0), IntensityOf(head[i].0))];
      }
    }
    assert head[..k] == head;
  }

  /** Each kept entry is one of the items, above the threshold, and they keep the items' order. */
  lemma KeepSpec(items: seq<Item>, threshold: real)
    ensures |Keep(items, threshold)| <= |items|
    ensures forall k | 0 <= k < |Keep(items, threshold)| ::
      Keep(items, threshold)[k].score > threshold &&
      (exists i | 0 <= i < |items| :: Keep(items, threshold)[k] == EntryOf(items[i]))
    ensures forall i | 0 <= i < |items| && items[i].1 > threshold :: EntryOf(items[i]) in Keep(items, threshold)
    ensures Sorted(items) ==> forall k, l | 0 <= k < l < |Keep(items, threshold)| ::
      Keep(items, threshold)[k].score >= Keep(items, threshold)[l].score
  {
    KeepLength(items, threshold);
    KeepFrom(items, threshold);
    KeepAll(items, threshold);
    if Sorted(items) {
      KeepOrdered(items, threshold);
    }
  }

  /** At most one entry per item. */
  lemma {:induction false} KeepLength(items: seq<Item>, threshold: real)
    ensures |Keep(items, threshold)| <= |items|
  {
    if items != [] {
      KeepLength(items[..|items| - 1], threshold);
    }
  }

  /** Every kept entry scores above the threshold and is the entry of some item. */
  lemma {:induction false} KeepFrom(items: seq<Item>, threshold: real)
    ensures forall k | 0 <= k < |Keep(items, threshold)| ::
      Keep(items, threshold)[k].score > threshold &&
      (exists i | 0 <= i < |items| :: Keep(items, threshold)[k] == EntryOf(items[i]))
  {
    if items != [] {
      var n := |items| - 1;
      var pre := items[..n];
      KeepFrom(pre, threshold);
      var kp := Keep(pre, threshold);
      var r := Keep(items, threshold);
      assert r == kp + (if items[n].1 > threshold then [EntryOf(items[n])] else []);
      forall k | 0 <= k < |r|
        ensures r[k].score > threshold && exists i | 0 <= i < |items| :: r[k] == EntryOf(items[i])
      {
        if k < |kp| {
          var i :| 0 <= i < |pre| && kp[k] == EntryOf(pre[i]);
          assert r[k] == kp[k] && pre[i] == items[i];
        } else {
          assert r[k] == EntryOf(items[n]);
        }
      }
    }
  }

  /** Every item above the threshold is kept. */
  lemma {:induction false} KeepAll(items: seq<Item>, threshold: real)
    ensures forall i | 0 <= i < |items| && items[i].1 > threshold :: EntryOf(items[i]) in Keep(items, threshold)
  {
    if items != [] {
      var n := |items| - 1;
      var pre := items[..n];
      KeepAll(pre, threshold);
      var kp := Keep(pre, threshold);
      var r := Keep(items, threshold);
      assert r == kp + (if items[n].1 > threshold then [EntryOf(items[n])] else []);
      forall i | 0 <= i < |items| && items[i].1 > threshold ensures EntryOf(items[i]) in r {
        if i < n {
          assert items[i] == pre[i];
          assert EntryOf(pre[i]) in kp;
        } else {
          assert r[|r| - 1] == EntryOf(items[n]);
        }
      }
    }
  }

  /** Sorted items keep their order among the kept entries. */
  lemma {:induction false} KeepOrdered(items: seq<Item>, threshold: real)
    requires Sorted(items)
    ensures forall k, l | 0 <= k < l < |Keep(items, threshold)| ::
      Keep(items, threshold)[k].score >= Keep(items, threshold)[l].score
  {
    if items != [] {
      var n := |items| - 1;
      var pre := items[..n];
      assert Sorted(pre) by {
        forall i, j | 0 <= i < j < |pre| ensures Before(pre[i], pre[j]) {
          assert pre[i] == items[i] && pre[j] == items[j];
        }
      }
      KeepOrdered(pre, threshold);
      KeepFrom(pre, threshold);
      var kp := Keep(pre, threshold);
      var r := Keep(items, threshold);
      assert r == kp + (if items[n].1 > threshold then [EntryOf(items[n])] else []);
      forall k, l | 0 <= k < l < |r| ensures r[k].score >= r[l].score {
        if l >= |kp| {
          var i :| 0 <= i < |pre| && kp[k] == EntryOf(pre[i]);
          assert pre[i] == items[i];
          assert Before(items[i], items[n]);
        } else {
          assert r[k] == kp[k] && r[l] == kp[l];
        }
      }
    }
  }

  /**
   * The top list holds at most `top_n` entries, all above the threshold, in
   * non-increasing score order, with category and intensity from the table;
   * it holds exactly the items among the first `top_n` of the ranking whose
   * score exceeds the threshold.
   */
  lemma TopSpecProperties(v: seq<real>, topN: nat, threshold: real)
    requires IsScores(v)
    ensures |TopSpec(v, topN, threshold)| <= topN
    ensures forall k | 0 <= k < |TopSpec(v, topN, threshold)| ::
      var t := TopSpec(v, topN, threshold)[k];
      t.score > threshold && t.score == ScoreOf(v, t.emotion) &&
      t.category == CategoryOf(t.emotion) && t.intensity == IntensityOf(t.emotion)
    ensures forall k, l | 0 <= k < l < |TopSpec(v, topN, threshold)| ::
      TopSpec(v, topN, threshold)[k].score >= TopSpec(v, topN, threshold)[l].score
    ensures forall i | 0 <= i < Min(topN, N) && Ranked(v)[i].1 > threshold ::
      EntryOf(Ranked(v)[i]) in TopSpec(v, topN, threshold)
    ensures forall k | 0 <= k < |TopSpec(v, topN, threshold)| ::
      exists i | 0 <= i < Min(topN, N) :: TopSpec(v, topN, threshold)[k] == EntryOf(Ranked(v)[i])
  {
    TopEntries(v, topN, threshold);
    TopOrdered(v, topN, threshold);
    TopSelection(v, topN, threshold);
  }

  /** The first `top_n` items of the ranking, still sorted. */
  lemma Head(v: seq<real>, topN: nat) returns (head: seq<Item>)
    requires IsScores(v)
    ensures head == Ranked(v)[..Min(topN, N)] && Sorted(head)
  {
    var r := Ranked(v);
    head := r[..Min(topN, N)];
    forall i, j | 0 <= i < j < |head| ensures Before(head[i], head[j]) {
      assert head[i] == r[i] && head[j] == r[j];
    }
  }

  lemma TopEntries(v: seq<real>, topN: nat, threshold: real)
    requires IsScores(v)
    ensures |TopSpec(v, topN, threshold)| <= topN
    ensures forall k | 0 <= k < |TopSpec(v, topN, threshold)| ::
      var t := TopSpec(v, topN, threshold)[k];
      t.score > threshold && t.score == ScoreOf(v, t.emotion) &&
      t.category == CategoryOf(t.emotion) && t.intensity == IntensityOf(t.emotion)
  {
    var head := Head(v, topN);
    KeepSpec(head, threshold);
    var top := TopSpec(v, topN, threshold);
    assert top == Keep(head, threshold);
    forall k | 0 <= k < |top| ensures top[k].score == ScoreOf(v, top[k].emotion) {
      var i :| 0 <= i < |head| && top[k] == EntryOf(head[i]);
      RankedItem(v, i);
    }
  }

  lemma TopOrdered(v: seq<real>, topN: nat, threshold: real)
    requires IsScores(v)
    ensures forall k, l | 0 <= k < l < |TopSpec(v, topN, threshold)| ::
      TopSpec(v, topN, threshold)[k].score >= TopSpec(v, topN, threshold)[l].score
  {
    var head := Head(v, topN);
    KeepSpec(head, threshold);
  }

  lemma TopSelection(v: seq<real>, topN: nat, threshold: real)
    requires IsScores(v)
    ensures forall i | 0 <= i < Min(topN, N) && Ranked(v)[i].1 > threshold ::
      EntryOf(Ranked(v)[i]) in TopSpec(v, topN, threshold)
    ensures forall k | 0 <= k < |TopSpec(v, topN, threshold)| ::
      exists i | 0 <= i < Min(topN, N) :: TopSpec(v, topN, threshold)[k] == EntryOf(Ranked(v)[i])
  {
    var head := Head(v, topN);
    KeepSpec(head, threshold);
    var top := TopSpec(v, topN, threshold);
    assert forall i | 0 <= i < Min(topN, N) :: head[i] == Ranked(v)[i];
  }

  /** Every item of the ranking pairs an emotion with its own score. */
  lemma RankedItem(v: seq<real>, i: nat)
    requires IsScores(v) && i < N
    ensures Ranked(v)[i].1 == ScoreOf(v, Ranked(v)[i].0)
  {
    var r := Ranked(v);
    var items := Items(v);
    assert r[i] in multiset(r);
    assert r[i] in multiset(items);
    var m :| 0 <= m < |items| && items[m] == r[i];
    IndexOfAll(m);
  }
}
