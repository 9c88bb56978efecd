/** The two in-place reorderings `recommend` applies to its list of scored
    meals: the optional seeded shuffle (Python's `random.shuffle`) and the
    stable sort by descending score (`list.sort(key=..., reverse=True)`).
    Each is a method on an array, proved against a function on sequences;
    the lemmas say what those functions guarantee. */
module Ranking {
  import opened Catalog
  import opened Scoring

  /** One element of the scored list: the tuple (score, meal, reasons, flags). */
  datatype Entry = Entry(score: int, meal: Meal, reasons: seq<Reason>, flags: seq<Flag>)

  /** Scores never increase along the list. */
  predicate SortedByScore(s: seq<Entry>)
  {
    forall i, j :: 0 <= i < j < |s| ==> s[i].score >= s[j].score
  }

  /** No two entries are for meals of the same name. */
  predicate NamesDistinct(s: seq<Entry>)
  {
    forall i, j :: 0 <= i < j < |s| ==> s[i].meal.name != s[j].meal.name
  }

  /** The entries of `s` that have score `v`, in their order in `s`. */
  function WithScore(s: seq<Entry>, v: int): (r: seq<Entry>)
    ensures |r| <= |s|
  {
    if s == [] then []
    else WithScore(s[..|s| - 1], v) + Keep(s[|s| - 1], v)
  }

  /** The part an entry contributes to WithScore. */
  function Keep(e: Entry, v: int): seq<Entry>
  {
    if e.score == v then [e] else []
  }

  lemma WithScoreSnoc(s: seq<Entry>, e: Entry, v: int)
    ensures WithScore(s + [e], v) == WithScore(s, v) + Keep(e, v)
  {
    assert (s + [e])[..|s|] == s;
  }

  /** WithScore keeps exactly the entries of the given score. */
  lemma {:induction false} WithScoreMembers(s: seq<Entry>, v: int, e: Entry)
    ensures e in WithScore(s, v) <==> e in s && e.score == v
  {
    if s != [] {
      WithScoreMembers(s[..|s| - 1], v, e);
      assert s == s[..|s| - 1] + [s[|s| - 1]];
    }
  }

  // ---------------------------------------------------------------------
  // Stable sort by descending score
  // ---------------------------------------------------------------------

  /** Inserts `x` behind every entry of `sorted` whose score is at least
      its own, as one pass of insertion sort does. */
  function Insert(sorted: seq<Entry>, x: Entry): (r: seq<Entry>)
    ensures |r| == |sorted| + 1
    decreases |sorted|
  {
    if sorted == [] || sorted[|sorted| - 1].score >= x.score then sorted + [x]
    else Insert(sorted[..|sorted| - 1], x) + [sorted[|sorted| - 1]]
  }

  /** The list sorted by descending score, equal scores keeping their order. */
  function SortByScore(s: seq<Entry>): (r: seq<Entry>)
    ensures |r| == |s|
  {
    if s == [] then [] else Insert(SortByScore(s[..|s| - 1]), s[|s| - 1])
  }

  lemma {:induction false} InsertAddsOne(sorted: seq<Entry>, x: Entry)
    ensures multiset(Insert(sorted, x)) == multiset(sorted) + multiset{x}
    decreases |sorted|
  {
    if !(sorted == [] || sorted[|sorted| - 1].score >= x.score) {
      InsertAddsOne(sorted[..|sorted| - 1], x);
      assert sorted == sorted[..|sorted| - 1] + [sorted[|sorted| - 1]];
    }
  }

  /** The sort only reorders: it keeps every entry and adds none. */
  lemma {:induction false} SortByScoreKeepsEntries(s: seq<Entry>)
    ensures multiset(SortByScore(s)) == multiset(s)
  {
    if s != [] {
      SortByScoreKeepsEntries(s[..|s| - 1]);
      InsertAddsOne(SortByScore(s[..|s| - 1]), s[|s| - 1]);
      assert s == s[..|s| - 1] + [s[|s| - 1]];
    }
  }

  /** Every entry of `s` scores at least `b`. */
  predicate AtLeast(s: seq<Entry>, b: int)
  {
    forall i :: 0 <= i < |s| ==> s[i].score >= b
  }

  lemma {:induction false} InsertAtLeast(sorted: seq<Entry>, x: Entry, b: int)
    requires AtLeast(sorted, b) && x.score >= b
    ensures AtLeast(Insert(sorted, x), b)
    decreases |sorted|
  {
    if !(sorted == [] || sorted[|sorted| - 1].score >= x.score) {
      InsertAtLeast(sorted[..|sorted| - 1], x, b);
    }
  }

  lemma SortedSnoc(s: seq<Entry>, e: Entry)
    requires SortedByScore(s) && AtLeast(s, e.score)
    ensures SortedByScore(s + [e])
  {
  }

  lemma {:induction false} InsertSorted(sorted: seq<Entry>, x: Entry)
    requires SortedByScore(sorted)
    ensures SortedByScore(Insert(sorted, x))
    decreases |sorted|
  {
    if sorted == [] || sorted[|sorted| - 1].score >= x.score {
      SortedSnoc(sorted, x);
    } else {
      var init, last := sorted[..|sorted| - 1], sorted[|sorted| - 1];
      InsertSorted(init, x);
      InsertAtLeast(init, x, last.score);
      SortedSnoc(Insert(init, x), last);
    }
  }

  /** The sorted list is ordered by descending score. */
  lemma {:induction false} SortByScoreSorted(s: seq<Entry>)
    ensures SortedByScore(SortByScore(s))
  {
    if s != [] {
      SortByScoreSorted(s[..|s| - 1]);
      InsertSorted(SortByScore(s[..|s| - 1]), s[|s| - 1]);
    }
  }

  lemma KeepCommutes(w: seq<Entry>, x: Entry, y: Entry, v: int)
    requires x.score != y.score
    ensures w + Keep(x, v) + Keep(y, v) == w + Keep(y, v) + Keep(x, v)
  {
  }

  lemma {:induction false} InsertKeepsScoreOrder(sorted: seq<Entry>, x: Entry, v: int)
    ensures WithScore(Insert(sorted, x), v) == WithScore(sorted, v) + Keep(x, v)
    decreases |sorted|
  {
    if sorted == [] || sorted[|sorted| - 1].score >= x.score {
      WithScoreSnoc(sorted, x, v);
    } else {
      var init, last := sorted[..|sorted| - 1], sorted[|sorted| - 1];
      InsertKeepsScoreOrder(init, x, v);
      WithScoreSnoc(Insert(init, x), last, v);
      KeepCommutes(WithScore(init, v), x, last, v);
    }
  }

  /** The sort is stable: for every score, the entries with that score come
      out in the order they went in. */
  lemma {:induction false} SortByScoreStable(s: seq<Entry>, v: int)
    ensures WithScore(SortByScore(s), v) == WithScore(s, v)
  {
    if s != [] {
      SortByScoreStable(s[..|s| - 1], v);
      InsertKeepsScoreOrder(SortByScore(s[..|s| - 1]), s[|s| - 1], v);
    }
  }

  lemma SortedLastIsLeast(r: seq<Entry>, e: Entry)
    requires SortedByScore(r) && e in r
    ensures e.score >= r[|r| - 1].score
  {
    var k :| 0 <= k < |r| && r[k] == e;
    assert k == |r| - 1 || r[k].score >= r[|r| - 1].score;
  }

  /** An entry of a list has its score in the list's WithScore. */
  lemma InWithScore(s: seq<Entry>, e: Entry)
    requires e in s
    ensures e in WithScore(s, e.score)
  {
    WithScoreMembers(s, e.score, e);
  }

  /** The last entry of a sorted list scores no more than any entry of a
      list that agrees with it score by score. */
  lemma LastScoreIsLeast(r1: seq<Entry>, r2: seq<Entry>)
    requires r1 != [] && r2 != []
    requires SortedByScore(r1)
    requires forall v :: WithScore(r1, v) == WithScore(r2, v)
    ensures r2[|r2| - 1].score >= r1[|r1| - 1].score
  {
    var l2 := r2[|r2| - 1];
    InWithScore(r2, l2);
    assert WithScore(r1, l2.score) == WithScore(r2, l2.score);
    WithScoreMembers(r1, l2.score, l2);
    SortedLastIsLeast(r1, l2);
  }

  lemma LastOfWithScore(s: seq<Entry>)
    requires s != []
    ensures WithScore(s, s[|s| - 1].score) == WithScore(s[..|s| - 1], s[|s| - 1].score) + [s[|s| - 1]]
  {
  }

  /** Two nonempty lists whose last entries have the same score, and which
      agree on the entries of that score, end alike. */
  lemma SameScoreOrderSameLast(r1: seq<Entry>, r2: seq<Entry>)
    requires r1 != [] && r2 != []
    requires r1[|r1| - 1].score == r2[|r2| - 1].score
    requires WithScore(r1, r1[|r1| - 1].score) == WithScore(r2, r1[|r1| - 1].score)
    ensures r1[|r1| - 1] == r2[|r2| - 1]
  {
    LastOfWithScore(r1);
    LastOfWithScore(r2);
  }

  lemma DropLast(a: seq<Entry>, b: seq<Entry>, t: seq<Entry>)
    requires a + t == b + t
    ensures a == b
  {
    assert a == (a + t)[..|a|];
  }

  lemma SortedDropLast(r: seq<Entry>)
    requires r != [] && SortedByScore(r)
    ensures SortedByScore(r[..|r| - 1])
  {
  }

  /** A nonempty list is its prefix followed by its last entry. */
  lemma SplitLast<T>(r: seq<T>)
    requires r != []
    ensures r == r[..|r| - 1] + [r[|r| - 1]]
  {
  }

  /** Dropping a common last entry keeps two lists in agreement on score `v`. */
  lemma DropLastKeepsScoreOrder(r1: seq<Entry>, r2: seq<Entry>, v: int)
    requires r1 != [] && r2 != [] && r1[|r1| - 1] == r2[|r2| - 1]
    requires WithScore(r1, v) == WithScore(r2, v)
    ensures WithScore(r1[..|r1| - 1], v) == WithScore(r2[..|r2| - 1], v)
  {
    DropLast(WithScore(r1[..|r1| - 1], v), WithScore(r2[..|r2| - 1], v), Keep(r1[|r1| - 1], v));
  }

  /** Two lists sorted by descending score that agree, score by score, on
      which entries they hold and in what order are the same list. */
  lemma {:induction false} SortedWithSameScoreOrderEqual(r1: seq<Entry>, r2: seq<Entry>)
    requires SortedByScore(r1) && SortedByScore(r2)
    requires forall v :: WithScore(r1, v) == WithScore(r2, v)
    ensures r1 == r2
    decreases |r1|
  {
    if r1 != [] && r2 != [] {
      LastScoreIsLeast(r1, r2);
      LastScoreIsLeast(r2, r1);
      SameScoreOrderSameLast(r1, r2);
      var i1, i2 := r1[..|r1| - 1], r2[..|r2| - 1];
      forall v ensures WithScore(i1, v) == WithScore(i2, v)
      {
        DropLastKeepsScoreOrder(r1, r2, v);
      }
      SortedDropLast(r1);
      SortedDropLast(r2);
      SortedWithSameScoreOrderEqual(i1, i2);
      SplitLast(r1);
      SplitLast(r2);
    } else if r1 != [] {
      InWithScore(r1, r1[|r1| - 1]);
    } else if r2 != [] {
      InWithScore(r2, r2[|r2| - 1]);
    }
  }

  /** SortByScore is the only stable descending sort: any list sorted by
      descending score that keeps the input's order among equal scores is
      SortByScore of the input. So insertion sort here and the merge-based
      sort of the source give the same list. */
  lemma StableSortUnique(s: seq<Entry>, r: seq<Entry>)
    requires SortedByScore(r)
    requires forall v :: WithScore(r, v) == WithScore(s, v)
    ensures r == SortByScore(s)
  {
    SortByScoreSorted(s);
    forall v ensures WithScore(r, v) == WithScore(SortByScore(s), v)
    {
      SortByScoreStable(s, v);
    }
    SortedWithSameScoreOrderEqual(r, SortByScore(s));
  }

  // ---------------------------------------------------------------------
  // Sorting a reordering gives the same scores
  // ---------------------------------------------------------------------

  lemma {:induction false} WithScoreCount(s: seq<Entry>, v: int, e: Entry)
    ensures multiset(WithScore(s, v))[e] == if e.score == v then multiset(s)[e] else 0
  {
    if s != [] {
      WithScoreCount(s[..|s| - 1], v, e);
      SplitLast(s);
    }
  }

  /** Two reorderings of one list hold the same entries of each score. */
  lemma PermutationKeepsScoreGroups(s1: seq<Entry>, s2: seq<Entry>, v: int)
    requires multiset(s1) == multiset(s2)
    ensures multiset(WithScore(s1, v)) == multiset(WithScore(s2, v))
  {
    forall e ensures multiset(WithScore(s1, v))[e] == multiset(WithScore(s2, v))[e]
    {
      WithScoreCount(s1, v, e);
      WithScoreCount(s2, v, e);
    }
  }

  /** A list with an entry of score `v` has a nonempty WithScore for `v`. */
  lemma NonEmptyGroup(s: seq<Entry>, v: int)
    requires |WithScore(s, v)| > 0
    ensures exists e :: e in s && e.score == v
  {
    WithScoreMembers(s, v, WithScore(s, v)[0]);
  }

  /** Two lists sorted by descending score with as many entries of each
      score have the same score at every position. */
  lemma {:induction false} SortedSameCountsSameScores(r1: seq<Entry>, r2: seq<Entry>)
    requires SortedByScore(r1) && SortedByScore(r2)
    requires forall v :: |WithScore(r1, v)| == |WithScore(r2, v)|
    ensures |r1| == |r2|
    ensures forall i :: 0 <= i < |r1| ==> r1[i].score == r2[i].score
    decreases |r1|
  {
    if r1 != [] && r2 != [] {
      var l1, l2 := r1[|r1| - 1], r2[|r2| - 1];
      LeastScoreAgrees(r1, r2);
      LeastScoreAgrees(r2, r1);
      var i1, i2 := r1[..|r1| - 1], r2[..|r2| - 1];
      forall v ensures |WithScore(i1, v)| == |WithScore(i2, v)|
      {
        assert |WithScore(r1, v)| == |WithScore(r2, v)|;
      }
      SortedDropLast(r1);
      SortedDropLast(r2);
      SortedSameCountsSameScores(i1, i2);
      forall i | 0 <= i < |r1| ensures r1[i].score == r2[i].score
      {
        if i < |r1| - 1 {
          assert r1[i] == i1[i] && r2[i] == i2[i];
        }
      }
    } else if r1 != [] {
      InWithScore(r1, r1[|r1| - 1]);
    } else if r2 != [] {
      InWithScore(r2, r2[|r2| - 1]);
    }
  }

  /** The last score of a sorted list is at most the last score of a
      nonempty list with as many entries of each score. */
  lemma LeastScoreAgrees(r1: seq<Entry>, r2: seq<Entry>)
    requires r1 != [] && r2 != [] && SortedByScore(r1)
    requires forall v :: |WithScore(r1, v)| == |WithScore(r2, v)|
    ensures r1[|r1| - 1].score <= r2[|r2| - 1].score
  {
    var l2 := r2[|r2| - 1];
    InWithScore(r2, l2);
    assert |WithScore(r1, l2.score)| == |WithScore(r2, l2.score)| > 0;
    NonEmptyGroup(r1, l2.score);
    var e :| e in r1 && e.score == l2.score;
    SortedLastIsLeast(r1, e);
  }

  // ---------------------------------------------------------------------
  // Reordering keeps names distinct
  // ---------------------------------------------------------------------

  lemma {:induction false} DistinctNamesOccurOnce(s: seq<Entry>, e: Entry)
    requires NamesDistinct(s)
    ensures multiset(s)[e] <= 1
  {
    if s != [] {
      var init := s[..|s| - 1];
      assert s == init + [s[|s| - 1]];
      DistinctNamesOccurOnce(init, e);
    }
  }

  /** A reordering of a list of distinctly named entries is distinctly named. */
  lemma PermutationKeepsNamesDistinct(s: seq<Entry>, r: seq<Entry>)
    requires NamesDistinct(s) && multiset(r) == multiset(s)
    ensures NamesDistinct(r)
  {
    forall i, j | 0 <= i < j < |r| ensures r[i].meal.name != r[j].meal.name
    {
      if r[i].meal.name == r[j].meal.name {
        assert r[i] in multiset(s) && r[j] in multiset(s);
        if r[i] == r[j] {
          assert r == r[..j] + r[j..];
          assert r[i] in r[..j] && r[j] in r[j..];
          assert multiset(r)[r[i]] == multiset(r[..j])[r[i]] + multiset(r[j..])[r[i]];
          DistinctNamesOccurOnce(s, r[i]);
        }
      }
    }
  }

  // ---------------------------------------------------------------------
  // The seeded shuffle
  // ---------------------------------------------------------------------

  /** The random draws of one seeded shuffle: `draw(n, i)` is the index
      drawn at the step for position `i` when the list has `n` entries,
      and like `randbelow(i + 1)` it is at most `i`. */
  ghost predicate ValidDraws(draw: (nat, nat) -> nat)
  {
    forall n: nat, i: nat :: 0 < i < n ==> draw(n, i) <= i
  }

  /** The swap of positions `i` and `j`. */
  function Swap(s: seq<Entry>, i: nat, j: nat): (r: seq<Entry>)
    requires i < |s| && j < |s|
    ensures |r| == |s|
  {
    s[i := s[j]][j := s[i]]
  }

  /** The steps of the shuffle for positions `i` down to 1. */
  function ShuffleSteps(s: seq<Entry>, i: nat, draw: (nat, nat) -> nat): (r: seq<Entry>)
    requires i < |s| && ValidDraws(draw)
    ensures |r| == |s|
    decreases i
  {
    if i == 0 then s
    else ShuffleSteps(Swap(s, i, draw(|s|, i)), i - 1, draw)
  }

  /** The list after the whole shuffle: a reordering of its entries. */
  function Shuffled(s: seq<Entry>, draw: (nat, nat) -> nat): (r: seq<Entry>)
    requires ValidDraws(draw)
    ensures |r| == |s|
  {
    if s == [] then [] else ShuffleSteps(s, |s| - 1, draw)
  }

  lemma SwapKeepsEntries(s: seq<Entry>, i: nat, j: nat)
    requires i < |s| && j < |s|
    ensures multiset(Swap(s, i, j)) == multiset(s)
  {
  }

  lemma {:induction false} ShuffleStepsKeepEntries(s: seq<Entry>, i: nat, draw: (nat, nat) -> nat)
    requires i < |s| && ValidDraws(draw)
    ensures multiset(ShuffleSteps(s, i, draw)) == multiset(s)
    decreases i
  {
    if i > 0 {
      SwapKeepsEntries(s, i, draw(|s|, i));
      ShuffleStepsKeepEntries(Swap(s, i, draw(|s|, i)), i - 1, draw);
    }
  }

  /** The shuffle only reorders: it keeps every entry and adds none. */
  lemma ShuffledKeepsEntries(s: seq<Entry>, draw: (nat, nat) -> nat)
    requires ValidDraws(draw)
    ensures multiset(Shuffled(s, draw)) == multiset(s)
  {
    if s != [] {
      ShuffleStepsKeepEntries(s, |s| - 1, draw);
    }
  }

  // ---------------------------------------------------------------------
  // The in-place methods
  // ---------------------------------------------------------------------

  /** `random.shuffle`: for each position from the last down to 1, swap it
      with a drawn position at or before it. */
  method Shuffle(a: array<Entry>, draw: (nat, nat) -> nat)
    requires ValidDraws(draw)
    modifies a
    ensures a[..] == Shuffled(old(a[..]), draw)
  {
    if a.Length == 0 {
      return;
    }
    var i := a.Length - 1;
    while i > 0
      invariant 0 <= i < a.Length
      invariant ShuffleSteps(a[..], i, draw) == Shuffled(old(a[..]), draw)
    {
      var j := draw(a.Length, i);
      ghost var before := a[..];
      var t := a[i];
      a[i] := a[j];
      a[j] := t;
      assert a[..] == Swap(before, i, j);
      i := i - 1;
    }
  }

  /** One pass of insertion sort: moves the entry at `i` left past the
      entries before it that have a strictly lower score. */
  method InsertInPlace(a: array<Entry>, i: nat)
    requires i < a.Length
    modifies a
    ensures a[..i + 1] == Insert(old(a[..i]), old(a[i]))
    ensures a[i + 1..] == old(a[i + 1..])
  {
    var x := a[i];
    var j := i;
    while j > 0 && a[j - 1].score < x.score
      invariant 0 <= j <= i
      invariant forall k :: 0 <= k < j ==> a[k] == old(a[k])
      invariant forall k :: j < k <= i ==> a[k] == old(a[k - 1])
      invariant forall k :: i < k < a.Length ==> a[k] == old(a[k])
      invariant forall k :: j <= k < i ==> old(a[k]).score < x.score
    {
      a[j] := a[j - 1];
      j := j - 1;
    }
    a[j] := x;
    InsertAt(old(a[..i]), x, j);
    ShiftedIsInserted(a[..], old(a[..]), x, i, j);
  }

  /** The array contents after one pass: the sorted prefix with `x` placed at
      `j` and the entries from `j` on moved one place right. */
  lemma ShiftedIsInserted(s: seq<Entry>, o: seq<Entry>, x: Entry, i: nat, j: nat)
    requires j <= i < |s| == |o|
    requires s[j] == x
    requires forall k :: 0 <= k < j ==> s[k] == o[k]
    requires forall k :: j < k <= i ==> s[k] == o[k - 1]
    requires forall k :: i < k < |s| ==> s[k] == o[k]
    ensures s[..i + 1] == o[..i][..j] + [x] + o[..i][j..]
    ensures s[i + 1..] == o[i + 1..]
  {
    var inserted := o[..i][..j] + [x] + o[..i][j..];
    forall k | 0 <= k <= i ensures s[k] == inserted[k]
    {
      if k > j {
        assert inserted[k] == o[k - 1];
      }
    }
  }

  /** Insert places `x` right behind the last entry that scores at least as
      much, ahead of the strictly lower entries that end the list. */
  lemma {:induction false} InsertAt(sorted: seq<Entry>, x: Entry, j: nat)
    requires j <= |sorted|
    requires j == 0 || sorted[j - 1].score >= x.score
    requires forall k :: j <= k < |sorted| ==> sorted[k].score < x.score
    ensures Insert(sorted, x) == sorted[..j] + [x] + sorted[j..]
    decreases |sorted|
  {
    if j < |sorted| {
      var init := sorted[..|sorted| - 1];
      assert init[..j] == sorted[..j];
      InsertAt(init, x, j);
      assert sorted[j..] == init[j..] + [sorted[|sorted| - 1]];
    } else {
      assert sorted[..j] == sorted && sorted[j..] == [];
    }
  }

  /** The stable sort by descending score, as an insertion sort. */
  method SortInPlace(a: array<Entry>)
    modifies a
    ensures a[..] == SortByScore(old(a[..]))
  {
    var i := 0;
    while i < a.Length
      invariant 0 <= i <= a.Length
      invariant a[..i] == SortByScore(old(a[..])[..i])
      invariant a[i..] == old(a[..])[i..]
    {
      InsertInPlace(a, i);
      assert old(a[..])[..i + 1][..i] == old(a[..])[..i];
      i := i + 1;
    }
    assert old(a[..])[..a.Length] == old(a[..]);
  }
}
