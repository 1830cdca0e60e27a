/**
 * The generic slice combinators of pkg/x/xs/slice.go.
 *
 * `Mapped` and `Filtered` are the specifications; `Map` and `Filter` are the
 * loops the source runs (an allocated buffer written index by index, and an
 * accumulator appended to). A Go nil slice and an empty slice are both `[]`.
 */
module Slices {

  /** Element i of the result is iteratee(s[i], i); defined from the back so
      that appending one element extends the result by one. */
  function Mapped<T, R>(s: seq<T>, iteratee: (T, int) -> R): (r: seq<R>)
    ensures |r| == |s|
    ensures forall i :: 0 <= i < |s| ==> r[i] == iteratee(s[i], i)
  {
    if s == [] then []
    else Mapped(s[..|s| - 1], iteratee) + [iteratee(s[|s| - 1], |s| - 1)]
  }

  /** The elements of s satisfying the predicate `keep`, in their original order. */
  function Filtered<T>(s: seq<T>, keep: T -> bool): (r: seq<T>)
    ensures |r| <= |s|
    ensures forall j :: 0 <= j < |r| ==> keep(r[j])
  {
    if s == [] then []
    else
      var rest := Filtered(s[..|s| - 1], keep);
      if keep(s[|s| - 1]) then rest + [s[|s| - 1]] else rest
  }

  /** xs.Map: make([]R, len(collection)), then result[i] = iteratee(item, i). */
  method Map<T, R(0)>(collection: seq<T>, iteratee: (T, int) -> R) returns (result: seq<R>)
    ensures |result| == |collection|
    ensures forall i :: 0 <= i < |collection| ==> result[i] == iteratee(collection[i], i)
    ensures result == Mapped(collection, iteratee)
  {
    var buffer := new R[|collection|];
    var i := 0;
    while i < |collection|
      invariant 0 <= i <= |collection|
      invariant forall k :: 0 <= k < i ==> buffer[k] == iteratee(collection[k], k)
    {
      buffer[i] := iteratee(collection[i], i);
      i := i + 1;
    }
    result := buffer[..];
  }

  /** xs.Filter: append every element the predicate accepts. */
  method Filter<T>(slice: seq<T>, keep: T -> bool) returns (result: seq<T>)
    ensures result == Filtered(slice, keep)
  {
    result := [];
    var i := 0;
    while i < |slice|
      invariant 0 <= i <= |slice|
      invariant result == Filtered(slice[..i], keep)
    {
      assert slice[..i + 1][..i] == slice[..i];
      if keep(slice[i]) {
        result := result + [slice[i]];
      }
      i := i + 1;
    }
    assert slice[..i] == slice;
  }

  /** Mapping an appended element extends the result by that element's image. */
  lemma {:induction false} MappedAppend<T, R>(s: seq<T>, x: T, iteratee: (T, int) -> R)
    ensures Mapped(s + [x], iteratee) == Mapped(s, iteratee) + [iteratee(x, |s|)]
  {
    assert (s + [x])[..|s|] == s;
  }

  /** Filtering an appended element adds it exactly when it satisfies the predicate. */
  lemma {:induction false} FilteredAppend<T>(s: seq<T>, x: T, keep: T -> bool)
    ensures Filtered(s + [x], keep)
         == Filtered(s, keep) + (if keep(x) then [x] else [])
  {
    assert (s + [x])[..|s|] == s;
  }

  /** Nothing that satisfies the predicate is lost, and nothing else is kept:
      each value occurs in the result as often as in the input when it
      satisfies the predicate, and never otherwise. */
  lemma {:induction false} FilteredKeepsExactly<T>(s: seq<T>, keep: T -> bool)
    ensures forall x {:trigger multiset(Filtered(s, keep))[x]} ::
      multiset(Filtered(s, keep))[x] == if keep(x) then multiset(s)[x] else 0
  {
    if s != [] {
      var init, last := s[..|s| - 1], s[|s| - 1];
      FilteredKeepsExactly(init, keep);
      assert s == init + [last];
      assert multiset(s) == multiset(init) + multiset{last};
    }
  }

  /** The result is an order-preserving subsequence: idx picks, in strictly
      increasing positions of s, exactly the elements of the result. */
  lemma {:induction false} FilteredIsSubsequence<T>(s: seq<T>, keep: T -> bool)
    returns (idx: seq<int>)
    ensures |idx| == |Filtered(s, keep)|
    ensures forall j :: 0 <= j < |idx| ==>
      0 <= idx[j] < |s| && s[idx[j]] == Filtered(s, keep)[j]
    ensures forall j, k :: 0 <= j < k < |idx| ==> idx[j] < idx[k]
  {
    if s == [] {
      idx := [];
    } else {
      var init := s[..|s| - 1];
      var prefix := FilteredIsSubsequence(init, keep);
      if keep(s[|s| - 1]) {
        idx := prefix + [|s| - 1];
      } else {
        idx := prefix;
      }
    }
  }

  /** The result is as long as the input exactly when every element satisfies the predicate. */
  lemma {:induction false} FilteredFullLength<T>(s: seq<T>, keep: T -> bool)
    ensures |Filtered(s, keep)| == |s| <==> forall i :: 0 <= i < |s| ==> keep(s[i])
  {
    if s != [] {
      var init := s[..|s| - 1];
      FilteredFullLength(init, keep);
      if !keep(s[|s| - 1]) {
        assert |Filtered(s, keep)| < |s|;
      }
    }
  }

  /** When every element satisfies the predicate, the result is the input itself. */
  lemma {:induction false} FilteredAllKept<T>(s: seq<T>, keep: T -> bool)
    requires forall i :: 0 <= i < |s| ==> keep(s[i])
    ensures Filtered(s, keep) == s
  {
    if s != [] {
      var init := s[..|s| - 1];
      FilteredAllKept(init, keep);
      assert init + [s[|s| - 1]] == s;
    }
  }

  /** Filtering twice with the same predicate is filtering once. */
  lemma FilteredIdempotent<T>(s: seq<T>, keep: T -> bool)
    ensures Filtered(Filtered(s, keep), keep) == Filtered(s, keep)
  {
    FilteredAllKept(Filtered(s, keep), keep);
  }

  /** No element satisfying the predicate gives the empty result (nil in Go). */
  lemma {:induction false} FilteredNoMatch<T>(s: seq<T>, keep: T -> bool)
    requires forall i :: 0 <= i < |s| ==> !keep(s[i])
    ensures Filtered(s, keep) == []
  {
    if s != [] {
      FilteredNoMatch(s[..|s| - 1], keep);
    }
  }
}
