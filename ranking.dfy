/**
 * The ranking step: `Array.prototype.sort` with a comparator that orders by
 * probability, highest first. The sort is stable (ECMAScript 2019 and later
 * require it), so entries of equal probability keep their relative order.
 * `SortDesc` is that sort as a function; `SortByProbability` is an in-place
 * insertion sort on an array that is proved to compute it.
 */
module Ranking {
  import opened Categories
  import opened Scoring

  /** Probabilities never increase from one entry to a later one. */
  predicate NonIncreasing(ps: seq<Prediction>) {
    forall i, j :: 0 <= i < j < |ps| ==> ps[i].probability >= ps[j].probability
  }

  /** Stable insertion: `x` goes after every entry whose probability is at
      least its own, and before the first entry with a smaller one. */
  function Insert(x: Prediction, ps: seq<Prediction>): (r: seq<Prediction>)
    ensures |r| == |ps| + 1
  {
    if ps == [] then [x]
    else if ps[0].probability < x.probability then [x] + ps
    else [ps[0]] + Insert(x, ps[1..])
  }

  /** Insertion adds exactly `x` to the entries. */
  lemma {:induction false} InsertAddsEntry(x: Prediction, ps: seq<Prediction>)
    ensures multiset(Insert(x, ps)) == multiset(ps) + multiset{x}
  {
    if ps != [] && ps[0].probability >= x.probability {
      InsertAddsEntry(x, ps[1..]);
      assert ps == [ps[0]] + ps[1..];
    }
  }

  /** Insertion into a ranking ordered by probability keeps it ordered. */
  lemma {:induction false} InsertKeepsOrder(x: Prediction, ps: seq<Prediction>)
    requires NonIncreasing(ps)
    ensures NonIncreasing(Insert(x, ps))
  {
    if ps != [] && ps[0].probability >= x.probability {
      var rest := Insert(x, ps[1..]);
      InsertKeepsOrder(x, ps[1..]);
      assert rest[0] == x || rest[0] == ps[1];
      assert ps[0].probability >= rest[0].probability;
    }
  }

  /** The stable sort, descending by probability: each entry, from the first
      to the last, is inserted into the ranking of the entries before it. */
  function SortDesc(ps: seq<Prediction>): (r: seq<Prediction>)
    ensures |r| == |ps|
    decreases |ps|
  {
    if ps == [] then []
    else
      var last := |ps| - 1;
      Insert(ps[last], SortDesc(ps[..last]))
  }

  /** The sort orders the entries by probability, highest first. */
  lemma {:induction false} SortDescOrdered(ps: seq<Prediction>)
    ensures NonIncreasing(SortDesc(ps))
    decreases |ps|
  {
    if ps != [] {
      var last := |ps| - 1;
      SortDescOrdered(ps[..last]);
      InsertKeepsOrder(ps[last], SortDesc(ps[..last]));
    }
  }

  /** The sorted entries are a permutation of the input. */
  lemma {:induction false} SortDescPermutes(ps: seq<Prediction>)
    ensures multiset(SortDesc(ps)) == multiset(ps)
    decreases |ps|
  {
    if ps != [] {
      var last := |ps| - 1;
      var front := ps[..last];
      SortDescPermutes(front);
      InsertAddsEntry(ps[last], SortDesc(front));
      assert ps == front + [ps[last]];
      assert multiset(ps) == multiset(front) + multiset{ps[last]};
    }
  }

  /** `a` is ranked before `b`: higher probability, or the same probability
      and an earlier category in declaration order. */
  predicate Precedes(a: Prediction, b: Prediction) {
    a.probability > b.probability ||
    (a.probability == b.probability && Index(a.category) < Index(b.category))
  }

  /** Every entry is ranked strictly before every later one. */
  predicate Ranked(ps: seq<Prediction>) {
    forall i, j :: 0 <= i < j < |ps| ==> Precedes(ps[i], ps[j])
  }

  /** Entries appear in the declaration order of their categories. */
  predicate InDeclarationOrder(ps: seq<Prediction>) {
    forall i, j :: 0 <= i < j < |ps| ==> Index(ps[i].category) < Index(ps[j].category)
  }

  lemma {:induction false} InsertKeepsRanked(x: Prediction, ps: seq<Prediction>)
    requires Ranked(ps)
    requires forall e :: e in ps ==> Index(e.category) < Index(x.category)
    ensures Ranked(Insert(x, ps))
  {
    if ps != [] && ps[0].probability >= x.probability {
      var rest := Insert(x, ps[1..]);
      InsertKeepsRanked(x, ps[1..]);
      InsertAddsEntry(x, ps[1..]);
      forall e | e in rest ensures Precedes(ps[0], e) {
        assert e in multiset(rest);
        if e != x {
          assert e in ps[1..];
          var k :| 0 <= k < |ps[1..]| && ps[1..][k] == e;
          assert ps[k + 1] == e;
        }
      }
    }
  }

  /** Stability: sorting entries given in declaration order ranks equal
      probabilities by declaration order. */
  lemma {:induction false} SortDescStable(ps: seq<Prediction>)
    requires InDeclarationOrder(ps)
    ensures Ranked(SortDesc(ps))
    decreases |ps|
  {
    if ps != [] {
      var last := |ps| - 1;
      var front := SortDesc(ps[..last]);
      SortDescStable(ps[..last]);
      SortDescPermutes(ps[..last]);
      InsertAddsEntry(ps[last], front);
      forall e | e in front ensures Index(e.category) < Index(ps[last].category) {
        assert e in multiset(front);
        assert e in ps[..last];
      }
      InsertKeepsRanked(ps[last], front);
    }
  }

  /** Inserting `x` adds its probability to the total. */
  lemma {:induction false} InsertAddsProbability(x: Prediction, ps: seq<Prediction>)
    ensures Sum(Probabilities(Insert(x, ps))) == x.probability + Sum(Probabilities(ps))
  {
    if ps == [] {
      assert Probabilities([x]) == [x.probability];
    } else if ps[0].probability >= x.probability {
      var rest := Insert(x, ps[1..]);
      InsertAddsProbability(x, ps[1..]);
      assert Probabilities([ps[0]] + rest)[1..] == Probabilities(rest);
      assert Probabilities(ps)[1..] == Probabilities(ps[1..]);
    } else {
      assert Probabilities([x] + ps)[1..] == Probabilities(ps);
    }
  }

  /** Inserting `x` adds its category to the categories present. */
  lemma {:induction false} InsertAddsCategory(x: Prediction, ps: seq<Prediction>)
    ensures multiset(CategoriesOf(Insert(x, ps))) == multiset(CategoriesOf(ps)) + multiset{x.category}
  {
    if ps != [] && ps[0].probability >= x.probability {
      InsertAddsCategory(x, ps[1..]);
      assert CategoriesOf([ps[0]] + Insert(x, ps[1..])) == [ps[0].category] + CategoriesOf(Insert(x, ps[1..]));
      assert CategoriesOf(ps) == [ps[0].category] + CategoriesOf(ps[1..]);
    } else if ps != [] {
      assert CategoriesOf([x] + ps) == [x.category] + CategoriesOf(ps);
    }
  }

  lemma ProbabilitiesOfPrefix(ps: seq<Prediction>)
    requires ps != []
    ensures Probabilities(ps) == Probabilities(ps[..|ps| - 1]) + [ps[|ps| - 1].probability]
  {
  }

  /** Sorting keeps the total probability. */
  lemma {:induction false} SortDescKeepsTotal(ps: seq<Prediction>)
    ensures Sum(Probabilities(SortDesc(ps))) == Sum(Probabilities(ps))
    decreases |ps|
  {
    if ps != [] {
      var last := |ps| - 1;
      var front := ps[..last];
      SortDescKeepsTotal(front);
      InsertAddsProbability(ps[last], SortDesc(front));
      ProbabilitiesOfPrefix(ps);
      SumAppend(Probabilities(front), [ps[last].probability]);
    }
  }

  lemma CategoriesOfPrefix(ps: seq<Prediction>)
    requires ps != []
    ensures CategoriesOf(ps) == CategoriesOf(ps[..|ps| - 1]) + [ps[|ps| - 1].category]
  {
  }

  /** Sorting keeps the categories present. */
  lemma {:induction false} SortDescKeepsCategories(ps: seq<Prediction>)
    ensures multiset(CategoriesOf(SortDesc(ps))) == multiset(CategoriesOf(ps))
    decreases |ps|
  {
    if ps != [] {
      var last := |ps| - 1;
      var front := ps[..last];
      SortDescKeepsCategories(front);
      InsertAddsCategory(ps[last], SortDesc(front));
      CategoriesOfPrefix(ps);
    }
  }

  /** Where the inner loop stops, the insertion splits the ranking. */
  lemma {:induction false} InsertAt(x: Prediction, ps: seq<Prediction>, j: nat)
    requires j <= |ps|
    requires forall k :: 0 <= k < j ==> ps[k].probability >= x.probability
    requires j < |ps| ==> ps[j].probability < x.probability
    ensures Insert(x, ps) == ps[..j] + [x] + ps[j..]
  {
    if j == 0 {
      assert ps[..0] + [x] + ps[0..] == [x] + ps;
    } else {
      var tail := ps[1..];
      assert ps[0].probability >= x.probability;
      assert Insert(x, ps) == [ps[0]] + Insert(x, tail);
      forall k | 0 <= k < j - 1 ensures tail[k].probability >= x.probability {
        assert tail[k] == ps[k + 1];
      }
      InsertAt(x, tail, j - 1);
      calc {
        Insert(x, ps);
        [ps[0]] + (tail[..j - 1] + [x] + tail[j - 1..]);
        { assert ps[..j] == [ps[0]] + tail[..j - 1]; assert ps[j..] == tail[j - 1..]; }
        ps[..j] + [x] + ps[j..];
      }
    }
  }

  /** One step of the in-place sort: with `a[..i]` already ranked, shifts
      the entries of smaller probability than `a[i]` one place to the right
      and drops `a[i]` into the gap. */
  method InsertInPlace(a: array<Prediction>, i: nat)
    requires i < a.Length && NonIncreasing(a[..i])
    modifies a
    ensures a[..i + 1] == Insert(old(a[i]), old(a[..i]))
    ensures a[i + 1..] == old(a[i + 1..])
  {
    var x := a[i];
    ghost var sorted := a[..i];
    var j := i;
    while j > 0 && a[j - 1].probability < x.probability
      invariant 0 <= j <= i
      invariant forall k :: 0 <= k < j ==> a[k] == sorted[k]
      invariant forall k :: j < k <= i ==> a[k] == sorted[k - 1]
      invariant forall k :: i < k < a.Length ==> a[k] == old(a[k])
      invariant j < i ==> sorted[j].probability < x.probability
    {
      a[j] := a[j - 1];
      j := j - 1;
    }
    a[j] := x;
    ShiftedIsInsertion(a[..i + 1], sorted, x, j);
  }

  /** The array contents the inner loop leaves behind are the stable
      insertion of `x`. */
  lemma ShiftedIsInsertion(b: seq<Prediction>, sorted: seq<Prediction>, x: Prediction, j: nat)
    requires NonIncreasing(sorted) && j <= |sorted| && |b| == |sorted| + 1
    requires forall k :: 0 <= k < j ==> b[k] == sorted[k]
    requires b[j] == x
    requires forall k :: j < k < |b| ==> b[k] == sorted[k - 1]
    requires j > 0 ==> sorted[j - 1].probability >= x.probability
    requires j < |sorted| ==> sorted[j].probability < x.probability
    ensures b == Insert(x, sorted)
  {
    assert forall k :: 0 <= k < j ==> sorted[k].probability >= x.probability by {
      if j > 0 {
        assert sorted[j - 1].probability >= x.probability;
      }
    }
    InsertAt(x, sorted, j);
    assert b == sorted[..j] + [x] + sorted[j..];
  }

  /** The in-place sort: insertion sort from the first entry to the last. */
  method SortByProbability(a: array<Prediction>)
    modifies a
    ensures a[..] == SortDesc(old(a[..]))
  {
    ghost var input := a[..];
    var i := 0;
    while i < a.Length
      invariant 0 <= i <= a.Length
      invariant a[..i] == SortDesc(input[..i])
      invariant a[i..] == input[i..]
    {
      assert input[..i + 1][..i] == input[..i];
      SortDescOrdered(input[..i]);
      InsertInPlace(a, i);
      i := i + 1;
    }
    assert input[..a.Length] == input;
  }
}
