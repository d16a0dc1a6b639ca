/**
 * What the holdings builder's final sort promises: positions ordered by
 * current value, largest first, with positions of equal value left in
 * their original relative order. The invariants of the in-place insertion
 * sort are stated here over sequences, with one lemma per step.
 */
module Ordering {
  import opened Types

  predicate SortedByValueDesc(s: seq<Holding>)
  {
    forall i, j :: 0 <= i < j < |s| ==> s[i].currentValue >= s[j].currentValue
  }

  /**
   * `s` rearranges `orig`: position `k` of `s` holds the element at
   * position `from[k]` of `orig`, and positions of equal current value keep
   * their original relative order (a stable rearrangement).
   */
  ghost predicate StablyRearranged(s: seq<Holding>, orig: seq<Holding>, from: seq<int>)
  {
    && |from| == |s| == |orig|
    && (forall k :: 0 <= k < |s| ==> 0 <= from[k] < |orig| && s[k] == orig[from[k]])
    && (forall p, q :: 0 <= p < q < |s| && s[p].currentValue == s[q].currentValue ==> from[p] < from[q])
  }

  /** `s` with the elements at `j - 1` and `j` exchanged. */
  function Swapped<T>(s: seq<T>, j: int): (r: seq<T>)
    requires 0 < j < |s|
  {
    s[j - 1 := s[j]][j := s[j - 1]]
  }

  /** Position `k` of `s` holds the element at position `from[k]` of `orig`. */
  ghost predicate Tracks(s: seq<Holding>, orig: seq<Holding>, from: seq<int>)
  {
    && |from| == |s| == |orig|
    && (forall k :: 0 <= k < |s| ==> 0 <= from[k] < |orig| && s[k] == orig[from[k]])
  }

  /**
   * The outer invariant of the insertion sort: the first `i` positions are
   * sorted, largest first, and are a stable rearrangement of the first `i`
   * original positions; the rest have not moved.
   */
  ghost predicate SortedPrefix(s: seq<Holding>, orig: seq<Holding>, from: seq<int>, i: int)
  {
    && 0 <= i <= |s|
    && Tracks(s, orig, from)
    && (forall p, q :: 0 <= p < q < i ==> s[p].currentValue >= s[q].currentValue)
    && (forall k :: 0 <= k < i ==> from[k] < i)
    && (forall k :: i <= k < |s| ==> from[k] == k)
    && (forall p, q :: 0 <= p < q < i && s[p].currentValue == s[q].currentValue ==> from[p] < from[q])
  }

  /**
   * The inner invariant: the element that started at position `i` now sits
   * at `j`, above every element after it up to `i`; apart from it, the
   * first `i + 1` positions are sorted and in stable order.
   */
  ghost predicate Inserting(s: seq<Holding>, orig: seq<Holding>, from: seq<int>, i: int, j: int)
  {
    && 0 <= j <= i < |s|
    && Tracks(s, orig, from)
    && (forall p, q :: 0 <= p < q <= i && p != j && q != j ==> s[p].currentValue >= s[q].currentValue)
    && (forall q :: j < q <= i ==> s[j].currentValue > s[q].currentValue)
    && from[j] == i
    && (forall k :: 0 <= k <= i && k != j ==> from[k] < i)
    && (forall k :: i < k < |s| ==> from[k] == k)
    && (forall p, q :: 0 <= p < q <= i && p != j && q != j && s[p].currentValue == s[q].currentValue ==>
          from[p] < from[q])
  }

  /** Before the sort, the empty prefix is trivially sorted and nothing has moved. */
  lemma StartSort(s: seq<Holding>)
    ensures SortedPrefix(s, s, seq(|s|, k => k), 0)
  {
  }

  /** Once the prefix is the whole sequence, it is sorted and a stable rearrangement. */
  lemma FinishSort(s: seq<Holding>, orig: seq<Holding>, from: seq<int>)
    requires SortedPrefix(s, orig, from, |s|)
    ensures SortedByValueDesc(s)
    ensures StablyRearranged(s, orig, from)
  {
  }

  lemma StartInsert(s: seq<Holding>, orig: seq<Holding>, from: seq<int>, i: int)
    requires SortedPrefix(s, orig, from, i) && i < |s|
    ensures Inserting(s, orig, from, i, i)
  {
  }

  /** Moving the inserted element one place up keeps the inner invariant. */
  lemma InsertStep(s: seq<Holding>, orig: seq<Holding>, from: seq<int>, i: int, j: int)
    requires Inserting(s, orig, from, i, j) && 0 < j
    requires s[j - 1].currentValue < s[j].currentValue
    ensures Inserting(Swapped(s, j), orig, Swapped(from, j), i, j - 1)
  {
    var s', from' := Swapped(s, j), Swapped(from, j);
    forall p, q | 0 <= p < q <= i && p != j - 1 && q != j - 1
      ensures s'[p].currentValue >= s'[q].currentValue
    {
      if q == j {
        assert s'[q] == s[j - 1];
      }
    }
    forall p, q | 0 <= p < q <= i && p != j - 1 && q != j - 1 && s'[p].currentValue == s'[q].currentValue
      ensures from'[p] < from'[q]
    {
      if q == j {
        assert s'[q] == s[j - 1] && from'[q] == from[j - 1];
      }
    }
  }

  /** Once the inserted element stops, the first `i + 1` positions are sorted and stable. */
  lemma FinishInsert(s: seq<Holding>, orig: seq<Holding>, from: seq<int>, i: int, j: int)
    requires Inserting(s, orig, from, i, j)
    requires j == 0 || s[j - 1].currentValue >= s[j].currentValue
    ensures SortedPrefix(s, orig, from, i + 1)
  {
    forall p, q | 0 <= p < q < i + 1
      ensures s[p].currentValue >= s[q].currentValue
    {
      if q == j && p < j - 1 {
        assert s[p].currentValue >= s[j - 1].currentValue;
      }
    }
  }
}
