/** Ranked predictions (prediction.go): a list of (class, score) pairs that
    implements the three methods of Go's `sort.Interface`, and a sort driven
    only by those methods. */
module Predictions {

  /** The `Class` of a prediction (`interface{}` in the source, never inspected;
      a Dafny keyword, so the field is called `category`). */
  type Class = string

  /** A class and its score. Scores are modelled as integers: only their
      order matters here. */
  datatype Prediction = Prediction(category: Class, score: int)

  /** The direction of a sort: `Ascending` uses `Less` as it is,
      `Descending` is `sort.Reverse`, which swaps the arguments of `Less`. */
  datatype Order = Ascending | Descending

  /** `Len`: the number of predictions. */
  function Len(ps: seq<Prediction>): (n: nat)
    ensures n == |ps|
    ensures n == 0 <==> ps == []
  {
    |ps|
  }

  /** `Less(i, j)`: the prediction at i scores strictly lower than the one at j. */
  function Less(ps: seq<Prediction>, i: int, j: int): (b: bool)
    requires 0 <= i < |ps| && 0 <= j < |ps|
    ensures b <==> ps[i].score < ps[j].score
  {
    ps[i].score < ps[j].score
  }

  /** `Less` is a strict weak order: irreflexive, asymmetric, transitive, and
      two positions neither of which is less than the other hold equal scores. */
  lemma LessIsStrictWeakOrder(ps: seq<Prediction>, i: int, j: int, k: int)
    requires 0 <= i < |ps| && 0 <= j < |ps| && 0 <= k < |ps|
    ensures !Less(ps, i, i)
    ensures !(Less(ps, i, j) && Less(ps, j, i))
    ensures Less(ps, i, j) && Less(ps, j, k) ==> Less(ps, i, k)
    ensures !Less(ps, i, j) && !Less(ps, j, i) <==> ps[i].score == ps[j].score
  {
  }

  /** The score as seen by a sort in direction `o`: reversing the comparator
      is comparing negated scores. */
  function Rank(o: Order, p: Prediction): int {
    match o
    case Ascending => p.score
    case Descending => -p.score
  }

  /** The comparison a sort in direction `o` uses. */
  function LessBy(o: Order, ps: seq<Prediction>, i: int, j: int): (b: bool)
    requires 0 <= i < |ps| && 0 <= j < |ps|
    ensures o == Ascending ==> (b <==> Less(ps, i, j))
    ensures o == Descending ==> (b <==> Less(ps, j, i))
  {
    Rank(o, ps[i]) < Rank(o, ps[j])
  }

  /** `Swap(i, j)`: the elements at i and j change places; every other
      position keeps its element, so the multiset of predictions is kept. */
  function Swap(ps: seq<Prediction>, i: int, j: int): (r: seq<Prediction>)
    requires 0 <= i < |ps| && 0 <= j < |ps|
    ensures |r| == |ps|
    ensures r[i] == ps[j] && r[j] == ps[i]
    ensures forall k :: 0 <= k < |ps| && k != i && k != j ==> r[k] == ps[k]
    ensures multiset(r) == multiset(ps)
  {
    ps[i := ps[j]][j := ps[i]]
  }

  /** Swapping the same two positions twice restores the sequence. */
  lemma SwapInvolution(ps: seq<Prediction>, i: int, j: int)
    requires 0 <= i < |ps| && 0 <= j < |ps|
    ensures Swap(Swap(ps, i, j), i, j) == ps
  {
  }

  /** `sort.IsSorted`: no later position is less than an earlier one. */
  predicate Sorted(o: Order, ps: seq<Prediction>) {
    forall i, j :: 0 <= i < j < |ps| ==> !LessBy(o, ps, j, i)
  }

  predicate NonDecreasing(ps: seq<Prediction>) {
    forall i, j :: 0 <= i < j < |ps| ==> ps[i].score <= ps[j].score
  }

  predicate NonIncreasing(ps: seq<Prediction>) {
    forall i, j :: 0 <= i < j < |ps| ==> ps[i].score >= ps[j].score
  }

  /** Sorted under `Less` means scores never decrease; sorted under the
      reversed comparator means they never increase. */
  lemma SortedMeansMonotone(ps: seq<Prediction>)
    ensures Sorted(Ascending, ps) <==> NonDecreasing(ps)
    ensures Sorted(Descending, ps) <==> NonIncreasing(ps)
  {
    forall i, j | 0 <= i < j < |ps|
      ensures !LessBy(Ascending, ps, j, i) <==> ps[i].score <= ps[j].score
      ensures !LessBy(Descending, ps, j, i) <==> ps[i].score >= ps[j].score
    {
    }
  }

  /** A sort that touches the predictions only through `Len`, `Less` (in the
      direction `o`) and `Swap`. It is a selection sort, not Go's
      `sort.Sort`; like `sort.Sort` it is not stable, and nothing is promised
      about the relative order of equal scores. */
  method Sort(ps: seq<Prediction>, o: Order) returns (r: seq<Prediction>)
    ensures multiset(r) == multiset(ps)
    ensures |r| == |ps|
    ensures Sorted(o, r)
    ensures o == Ascending ==> NonDecreasing(r)
    ensures o == Descending ==> NonIncreasing(r)
  {
    r := ps;
    var i := 0;
    while i < Len(r)
      invariant 0 <= i <= |r| == |ps|
      invariant multiset(r) == multiset(ps)
      invariant forall a, b :: 0 <= a < b < i ==> Rank(o, r[a]) <= Rank(o, r[b])
      invariant forall a, b :: 0 <= a < i <= b < |r| ==> Rank(o, r[a]) <= Rank(o, r[b])
    {
      var m := i;
      var k := i + 1;
      while k < Len(r)
        invariant i <= m < |r|
        invariant i + 1 <= k <= |r|
        invariant forall b :: i <= b < k ==> Rank(o, r[m]) <= Rank(o, r[b])
      {
        if LessBy(o, r, k, m) {
          m := k;
        }
        k := k + 1;
      }
      r := Swap(r, i, m);
      i := i + 1;
    }
  }

  /** No two predictions share a score. */
  predicate DistinctScores(ps: seq<Prediction>) {
    forall i, j :: 0 <= i < |ps| && 0 <= j < |ps| && i != j ==> ps[i].score != ps[j].score
  }

  /** Dropping equal heads from equal multisets leaves equal multisets. */
  lemma TailMultiset(a: seq<Prediction>, b: seq<Prediction>)
    requires |a| > 0 && |b| > 0 && a[0] == b[0]
    requires multiset(a) == multiset(b)
    ensures multiset(a[1..]) == multiset(b[1..])
  {
    assert a == [a[0]] + a[1..];
    assert b == [b[0]] + b[1..];
    assert multiset(a) == multiset{a[0]} + multiset(a[1..]);
    assert multiset(b) == multiset{b[0]} + multiset(b[1..]);
    forall x
      ensures multiset(a[1..])[x] == multiset(b[1..])[x]
    {
      assert multiset(a)[x] == multiset{a[0]}[x] + multiset(a[1..])[x];
      assert multiset(b)[x] == multiset{b[0]}[x] + multiset(b[1..])[x];
    }
  }

  /** The tail of a sorted sequence with distinct scores is again sorted with
      distinct scores. */
  lemma SortedTail(o: Order, a: seq<Prediction>)
    requires |a| > 0 && Sorted(o, a) && DistinctScores(a)
    ensures Sorted(o, a[1..]) && DistinctScores(a[1..])
  {
    forall p, q | 0 <= p < q < |a[1..]|
      ensures !LessBy(o, a[1..], q, p)
    {
      assert !LessBy(o, a, q + 1, p + 1);
    }
    forall p, q | 0 <= p < |a[1..]| && 0 <= q < |a[1..]| && p != q
      ensures a[1..][p].score != a[1..][q].score
    {
      assert a[1..][p] == a[p + 1] && a[1..][q] == a[q + 1];
    }
  }

  /** The head of a sorted sequence ranks no higher than any element. */
  lemma SortedHeadLeast(o: Order, a: seq<Prediction>, i: int)
    requires Sorted(o, a) && 0 <= i < |a|
    ensures Rank(o, a[0]) <= Rank(o, a[i])
  {
    if i > 0 {
      assert !LessBy(o, a, i, 0);
    }
  }

  /** The only freedom an unstable sort has is among equal scores: two sorted
      permutations of the same predictions with pairwise distinct scores are
      the same sequence. */
  lemma {:induction false} SortedPermutationsAgree(o: Order, a: seq<Prediction>, b: seq<Prediction>)
    requires multiset(a) == multiset(b)
    requires Sorted(o, a) && Sorted(o, b)
    requires DistinctScores(a)
    ensures a == b
    decreases |a|
  {
    assert |a| == |multiset(a)| == |multiset(b)| == |b|;
    if |a| > 0 {
      assert a[0] in multiset(b) && b[0] in multiset(a);
      var i :| 0 <= i < |b| && b[i] == a[0];
      var j :| 0 <= j < |a| && a[j] == b[0];
      SortedHeadLeast(o, b, i);
      SortedHeadLeast(o, a, j);
      assert j == 0;
      TailMultiset(a, b);
      SortedTail(o, a);
      assert Sorted(o, b[1..]) by {
        forall p, q | 0 <= p < q < |b[1..]|
          ensures !LessBy(o, b[1..], q, p)
        {
          assert !LessBy(o, b, q + 1, p + 1);
        }
      }
      SortedPermutationsAgree(o, a[1..], b[1..]);
      assert a == [a[0]] + a[1..];
      assert b == [b[0]] + b[1..];
    }
  }

  /** Removing the element at i removes one copy of it from the multiset. */
  lemma RemoveAtMultiset(s: seq<Prediction>, i: int)
    requires 0 <= i < |s|
    ensures multiset(s[..i] + s[i + 1..]) == multiset(s) - multiset{s[i]}
  {
    assert s == s[..i] + [s[i]] + s[i + 1..];
    assert multiset(s) == multiset(s[..i]) + multiset{s[i]} + multiset(s[i + 1..]);
  }

  /** Taking the head off one sequence and the same element off the other
      leaves two permutations of each other. */
  lemma TailsPermute(a: seq<Prediction>, b: seq<Prediction>, i: int)
    requires |a| > 0 && 0 <= i < |b| && b[i] == a[0]
    requires multiset(a) == multiset(b)
    ensures multiset(a[1..]) == multiset(b[..i] + b[i + 1..])
  {
    RemoveAtMultiset(a, 0);
    RemoveAtMultiset(b, i);
    assert a[..0] + a[1..] == a[1..];
  }

  /** Removing an element from a sorted sequence leaves it sorted. */
  lemma SortedRemoveAt(o: Order, s: seq<Prediction>, i: int)
    requires 0 <= i < |s| && Sorted(o, s)
    ensures Sorted(o, s[..i] + s[i + 1..])
  {
    var r := s[..i] + s[i + 1..];
    forall p, q | 0 <= p < q < |r|
      ensures !LessBy(o, r, q, p)
    {
      var p' := if p < i then p else p + 1;
      var q' := if q < i then q else q + 1;
      assert r[p] == s[p'] && r[q] == s[q'];
      assert !LessBy(o, s, q', p');
    }
  }

  /** In a sorted sequence every element up to position i ranks between
      the first element and the one at i. */
  lemma SortedPrefixBetween(o: Order, s: seq<Prediction>, i: int)
    requires Sorted(o, s) && 0 <= i < |s|
    ensures forall k :: 0 <= k <= i ==> Rank(o, s[0]) <= Rank(o, s[k]) <= Rank(o, s[i])
  {
    forall k | 0 <= k <= i
      ensures Rank(o, s[0]) <= Rank(o, s[k]) <= Rank(o, s[i])
    {
      SortedHeadLeast(o, s, k);
      if k < i {
        assert !LessBy(o, s, i, k);
      }
    }
  }

  /** Putting back at position i an element whose score equals that of
      every element before it preserves score-wise agreement. */
  lemma ScoresAfterReinsert(a: seq<Prediction>, b: seq<Prediction>, i: int, a': seq<Prediction>, b': seq<Prediction>)
    requires |a| == |b| && 0 <= i < |b|
    requires a' == a[1..] && b' == b[..i] + b[i + 1..]
    requires forall k :: 0 <= k <= i ==> b[k].score == a[0].score
    requires forall k :: 0 <= k < |a'| ==> a'[k].score == b'[k].score
    ensures forall k :: 0 <= k < |a| ==> a[k].score == b[k].score
  {
    forall k | 0 <= k < |a|
      ensures a[k].score == b[k].score
    {
      if 0 < k <= i {
        assert a[k] == a'[k - 1] && b'[k - 1] == b[k - 1];
      } else if k > i {
        assert a[k] == a'[k - 1] && b'[k - 1] == b[k];
      }
    }
  }

  /** Whatever order an unstable sort leaves equal scores in, the scores
      themselves come out the same: two sorted permutations of the same
      predictions hold equal scores at every position. */
  lemma {:induction false} SortedPermutationsSameScores(o: Order, a: seq<Prediction>, b: seq<Prediction>)
    requires multiset(a) == multiset(b)
    requires Sorted(o, a) && Sorted(o, b)
    ensures |a| == |b|
    ensures forall k :: 0 <= k < |a| ==> a[k].score == b[k].score
    decreases |a|
  {
    assert |a| == |multiset(a)| == |multiset(b)| == |b|;
    if |a| > 0 {
      assert a[0] in multiset(b) && b[0] in multiset(a);
      var i :| 0 <= i < |b| && b[i] == a[0];
      var j :| 0 <= j < |a| && a[j] == b[0];
      SortedHeadLeast(o, a, j);
      SortedPrefixBetween(o, b, i);
      var a', b' := a[1..], b[..i] + b[i + 1..];
      TailsPermute(a, b, i);
      SortedRemoveAt(o, b, i);
      SortedRemoveAt(o, a, 0);
      assert a[..0] + a[1..] == a';
      SortedPermutationsSameScores(o, a', b');
      ScoresAfterReinsert(a, b, i, a', b');
    }
  }
}
