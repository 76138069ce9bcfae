/**
 * Sequence bookkeeping shared by the audio model: the optional value used for
 * nullable references, and the three list operations the source relies on
 * (LINQ's `Distinct`, a `Where` that drops some values, and the editor's
 * "add it unless it is already there" loop).
 */
module Seqs {

  datatype Option<T> = None | Some(value: T)

  /** No element occurs twice. */
  predicate NoDuplicates(s: seq<int>) {
    forall i, j :: 0 <= i < j < |s| ==> s[i] != s[j]
  }

  /** The elements of a sequence, as a set. */
  function Elems(s: seq<int>): set<int> {
    set x | x in s
  }

  /**
   * The first occurrence of every element, in order of first occurrence
   * (what `Enumerable.Distinct` yields).
   */
  function Distinct(s: seq<int>): (r: seq<int>)
    ensures NoDuplicates(r)
    ensures forall x :: x in r <==> x in s
    ensures |r| <= |s|
    decreases |s|
  {
    if s == [] then []
    else
      var r := Distinct(s[..|s| - 1]);
      if s[|s| - 1] in r then r else r + [s[|s| - 1]]
  }

  /** Keeps, in order, the elements that are not in `drop`. */
  function RemoveAll(s: seq<int>, drop: set<int>): (r: seq<int>)
    ensures forall x :: x in r <==> x in s && x !in drop
    ensures NoDuplicates(s) ==> NoDuplicates(r)
    ensures |r| <= |s|
    decreases |s|
  {
    if s == [] then []
    else
      var r := RemoveAll(s[..|s| - 1], drop);
      assert NoDuplicates(s) ==> NoDuplicates(s[..|s| - 1]);
      if s[|s| - 1] in drop then r else r + [s[|s| - 1]]
  }

  /**
   * Walks `xs` in order and appends each element that the list does not hold
   * yet (including the elements appended earlier in the same walk).
   */
  function AddMissing(list: seq<int>, xs: seq<int>): (r: seq<int>)
    decreases |xs|
  {
    if xs == [] then list
    else
      var r := AddMissing(list, xs[..|xs| - 1]);
      if xs[|xs| - 1] in r then r else r + [xs[|xs| - 1]]
  }

  /** Appending one more element extends the walk by one step. */
  lemma AddMissingSnoc(list: seq<int>, xs: seq<int>, x: int)
    ensures AddMissing(list, xs + [x])
         == (var r := AddMissing(list, xs); if x in r then r else r + [x])
  {
    assert (xs + [x])[..|xs + [x]| - 1] == xs;
  }

  /**
   * The existing list is kept as a prefix, the result holds exactly the old
   * elements and the offered ones, and a duplicate-free list stays so.
   */
  lemma {:induction false} AddMissingKeepsList(list: seq<int>, xs: seq<int>)
    ensures |list| <= |AddMissing(list, xs)|
    ensures AddMissing(list, xs)[..|list|] == list
    ensures forall x :: x in AddMissing(list, xs) <==> x in list || x in xs
    ensures NoDuplicates(list) ==> NoDuplicates(AddMissing(list, xs))
    decreases |xs|
  {
    if xs != [] {
      var front := xs[..|xs| - 1];
      AddMissingKeepsList(list, front);
      assert xs == front + [xs[|xs| - 1]];
    }
  }

  /**
   * What is appended is the first occurrence of each offered element that
   * the list does not hold, in the order they are offered.
   */
  lemma {:induction false} AddMissingAppendsNewInOrder(list: seq<int>, xs: seq<int>)
    ensures AddMissing(list, xs) == list + Distinct(RemoveAll(xs, Elems(list)))
    decreases |xs|
  {
    if xs != [] {
      var front, x := xs[..|xs| - 1], xs[|xs| - 1];
      AddMissingAppendsNewInOrder(list, front);
      var d := Distinct(RemoveAll(front, Elems(list)));
      assert xs[..|xs| - 1] == front;
      if x in Elems(list) {
        assert RemoveAll(xs, Elems(list)) == RemoveAll(front, Elems(list));
      } else {
        var f := RemoveAll(front, Elems(list));
        assert RemoveAll(xs, Elems(list)) == f + [x];
        assert (f + [x])[..|f + [x]| - 1] == f;
        assert (x in list + d) <==> x in d;
      }
    }
  }

  /** Distinct leaves a duplicate-free sequence as it is. */
  lemma {:induction false} DistinctOfDistinct(s: seq<int>)
    requires NoDuplicates(s)
    ensures Distinct(s) == s
    decreases |s|
  {
    if s != [] {
      var front := s[..|s| - 1];
      DistinctOfDistinct(front);
      assert s[|s| - 1] !in front;
      assert s == front + [s[|s| - 1]];
    }
  }

  /** Adding to an empty list is the same as taking the distinct elements. */
  lemma AddMissingToEmpty(xs: seq<int>)
    ensures AddMissing([], xs) == Distinct(xs)
  {
    AddMissingAppendsNewInOrder([], xs);
    assert Elems([]) == {};
    RemoveAllNothing(xs);
  }

  /** Dropping no values keeps the sequence. */
  lemma {:induction false} RemoveAllNothing(s: seq<int>)
    ensures RemoveAll(s, {}) == s
    decreases |s|
  {
    if s != [] {
      RemoveAllNothing(s[..|s| - 1]);
      assert s == s[..|s| - 1] + [s[|s| - 1]];
    }
  }
}
