/** The `Array.prototype` queries the store and the handlers use: `filter` and `find`. */
module Seqs {
  import opened Wrappers

  /** `b` contains the elements of `a` in the same order, possibly with others in between. */
  ghost predicate IsSubsequence<T>(a: seq<T>, b: seq<T>)
    decreases |b|
  {
    a == [] || (b != [] && if a[0] == b[0] then IsSubsequence(a[1..], b[1..]) else IsSubsequence(a, b[1..]))
  }

  /** Every sequence embeds in itself. */
  lemma {:induction false} SubsequenceReflexive<T>(a: seq<T>)
    ensures IsSubsequence(a, a)
  {
    if a != [] {
      SubsequenceReflexive(a[1..]);
    }
  }

  /** Dropping the first element keeps the embedding. */
  lemma {:induction false} SubsequenceTail<T>(a: seq<T>, c: seq<T>)
    requires a != [] && IsSubsequence(a, c)
    ensures IsSubsequence(a[1..], c)
    decreases |c|, 1
  {
    if a[0] == c[0] {
      SubsequenceCons(a[1..], c);
    } else {
      SubsequenceTail(a, c[1..]);
      SubsequenceCons(a[1..], c);
    }
  }

  /** Putting an element in front of the larger sequence keeps the embedding. */
  lemma {:induction false} SubsequenceCons<T>(a: seq<T>, c: seq<T>)
    requires c != [] && IsSubsequence(a, c[1..])
    ensures IsSubsequence(a, c)
    decreases |c|, 0
  {
    if a != [] && a[0] == c[0] {
      SubsequenceTail(a, c[1..]);
    }
  }

  /** Embedding a sequence in a subsequence of `c` embeds it in `c`. */
  lemma {:induction false} SubsequenceTransitive<T>(a: seq<T>, b: seq<T>, c: seq<T>)
    requires IsSubsequence(a, b) && IsSubsequence(b, c)
    ensures IsSubsequence(a, c)
    decreases |c|
  {
    if a == [] {
    } else if b[0] == c[0] {
      if a[0] == b[0] {
        SubsequenceTransitive(a[1..], b[1..], c[1..]);
      } else {
        SubsequenceTransitive(a, b[1..], c[1..]);
      }
    } else {
      SubsequenceTransitive(a, b, c[1..]);
      SubsequenceCons(a, c);
    }
  }

  /** Concatenation is associative. */
  lemma AppendAssoc<T>(a: seq<T>, b: seq<T>, c: seq<T>)
    ensures a + b + c == a + (b + c)
  {
  }

  /** `s.filter(keep)`: the elements `keep` accepts, in their original order. */
  function Filter<T>(s: seq<T>, keep: T -> bool): (r: seq<T>)
    ensures forall x :: x in r ==> x in s && keep(x)
    ensures forall x :: x in s && keep(x) ==> x in r
    ensures IsSubsequence(r, s)
    ensures |r| <= |s|
    ensures forall x {:trigger multiset(r)[x]} :: x in s ==> multiset(r)[x] == if keep(x) then multiset(s)[x] else 0
  {
    if s == [] then []
    else
      assert s == [s[0]] + s[1..];
      if keep(s[0]) then [s[0]] + Filter(s[1..], keep)
      else Filter(s[1..], keep)
  }

  /** Filtering distributes over concatenation. */
  lemma {:induction false} FilterAppend<T>(a: seq<T>, b: seq<T>, keep: T -> bool)
    ensures Filter(a + b, keep) == Filter(a, keep) + Filter(b, keep)
  {
    if a == [] {
      assert a + b == b;
    } else {
      assert (a + b)[1..] == a[1..] + b;
      FilterAppend(a[1..], b, keep);
    }
  }

  /** No element occurs twice. */
  ghost predicate Distinct<T>(s: seq<T>) {
    forall i, j :: 0 <= i < j < |s| ==> s[i] != s[j]
  }

  /** Filtering a sequence without repetitions yields one without repetitions. */
  lemma {:induction false} FilterDistinct<T>(s: seq<T>, keep: T -> bool)
    requires Distinct(s)
    ensures Distinct(Filter(s, keep))
  {
    if s != [] {
      assert Distinct(s[1..]);
      FilterDistinct(s[1..], keep);
      assert s[0] !in s[1..];
    }
  }

  /** The same, stated for any sequence. */
  lemma FilterKeepsDistinct<T>(s: seq<T>, keep: T -> bool)
    ensures Distinct(s) ==> Distinct(Filter(s, keep))
  {
    if Distinct(s) {
      FilterDistinct(s, keep);
    }
  }

  /** A filter that accepts every element changes nothing. */
  lemma {:induction false} FilterAll<T>(s: seq<T>, keep: T -> bool)
    requires forall x :: x in s ==> keep(x)
    ensures Filter(s, keep) == s
  {
    if s != [] {
      FilterAll(s[1..], keep);
      assert [s[0]] + s[1..] == s;
    }
  }

  /** `s.findIndex(test)` extended to `|s|` for "not found": the first position `test` accepts. */
  function FindIndex<T>(s: seq<T>, test: T -> bool): (i: nat)
    ensures i <= |s|
    ensures forall j :: 0 <= j < i ==> !test(s[j])
    ensures i < |s| ==> test(s[i])
  {
    if s == [] then 0
    else if test(s[0]) then 0
    else 1 + FindIndex(s[1..], test)
  }

  /** `s.find(test)`: the first element `test` accepts, or undefined when there is none. */
  function Find<T>(s: seq<T>, test: T -> bool): (r: Option<T>)
    ensures r.None? <==> forall x :: x in s ==> !test(x)
    ensures r.Some? ==> r.value in s && test(r.value)
    ensures r.Some? ==> exists i :: 0 <= i < |s| && s[i] == r.value && forall j :: 0 <= j < i ==> !test(s[j])
  {
    var i := FindIndex(s, test);
    if i < |s| then Some(s[i]) else None
  }

  /** The list with `f` applied to each element, in the same order. */
  function Map<T, U>(s: seq<T>, f: T -> U): (r: seq<U>)
    ensures |r| == |s| && forall i :: 0 <= i < |s| ==> r[i] == f(s[i])
  {
    if s == [] then [] else [f(s[0])] + Map(s[1..], f)
  }

  /** Mapping with a function that keeps the filter's verdict commutes with the filter. */
  lemma {:induction false} FilterMap<T, U>(s: seq<T>, f: T -> U, keep: T -> bool, keepImage: U -> bool)
    requires forall x :: keepImage(f(x)) == keep(x)
    ensures Filter(Map(s, f), keepImage) == Map(Filter(s, keep), f)
  {
    if s != [] {
      FilterMap(s[1..], f, keep, keepImage);
      assert Map(s, f)[1..] == Map(s[1..], f);
    }
  }

  /** `s.some(test)`. */
  predicate Any<T>(s: seq<T>, test: T -> bool) {
    exists i :: 0 <= i < |s| && test(s[i])
  }

  /** Searching a concatenation searches the first part, then the second. */
  lemma {:induction false} FindIndexAppend<T>(a: seq<T>, b: seq<T>, test: T -> bool)
    ensures FindIndex(a + b, test)
      == if FindIndex(a, test) < |a| then FindIndex(a, test) else |a| + FindIndex(b, test)
  {
    if a == [] {
      assert a + b == b;
    } else {
      assert (a + b)[0] == a[0];
      if !test(a[0]) {
        assert (a + b)[1..] == a[1..] + b;
        FindIndexAppend(a[1..], b, test);
      }
    }
  }

  /**
   * Element `p` of list `k` is the first element of the lists, taken one
   * after another, that `test` accepts.
   */
  ghost predicate FirstNested<T>(lists: seq<seq<T>>, test: T -> bool, k: int, p: int) {
    && 0 <= k < |lists| && 0 <= p < |lists[k]| && test(lists[k][p])
    && (forall k2, x :: 0 <= k2 < k && x in lists[k2] ==> !test(x))
    && (forall p2 :: 0 <= p2 < p ==> !test(lists[k][p2]))
  }

  /** A first match in the later lists is a first match in all of them when the first list has none. */
  lemma FirstNestedShift<T>(lists: seq<seq<T>>, test: T -> bool, k: int, p: int)
    requires lists != [] && forall x :: x in lists[0] ==> !test(x)
    requires FirstNested(lists[1..], test, k, p)
    ensures FirstNested(lists, test, k + 1, p) && lists[k + 1] == lists[1..][k]
  {
    forall k2, x | 0 <= k2 < k + 1 && x in lists[k2]
      ensures !test(x)
    {
      if k2 > 0 {
        assert lists[k2] == lists[1..][k2 - 1];
      }
    }
  }

  /** `find` over the flattened lists returns the first accepted element, list by list. */
  lemma {:induction false} FindFlatten<T>(lists: seq<seq<T>>, test: T -> bool)
    ensures var r := Find(Flatten(lists), test);
      r.Some? ==> exists k, p :: FirstNested(lists, test, k, p) && r.value == lists[k][p]
  {
    if lists != [] {
      var rest := Flatten(lists[1..]);
      assert Flatten(lists) == lists[0] + rest;
      FindIndexAppend(lists[0], rest, test);
      var i := FindIndex(lists[0], test);
      if i < |lists[0]| {
        assert Find(Flatten(lists), test) == Some(lists[0][i]);
        assert FirstNested(lists, test, 0, i);
      } else {
        assert Find(Flatten(lists), test) == Find(rest, test);
        FindFlatten(lists[1..], test);
        var r := Find(rest, test);
        if r.Some? {
          var k, p :| FirstNested(lists[1..], test, k, p) && r.value == lists[1..][k][p];
          FirstNestedShift(lists, test, k, p);
        }
      }
    }
  }

  /** `[].concat(...lists)`, i.e. `Array.prototype.flat` over one level. */
  function Flatten<T>(lists: seq<seq<T>>): (r: seq<T>)
    ensures forall x :: x in r ==> exists i :: 0 <= i < |lists| && x in lists[i]
    ensures forall i, x :: 0 <= i < |lists| && x in lists[i] ==> x in r
  {
    if lists == [] then []
    else
      assert forall i :: 1 <= i < |lists| ==> lists[i] == lists[1..][i - 1];
      lists[0] + Flatten(lists[1..])
  }
}
