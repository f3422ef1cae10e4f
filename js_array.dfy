/**
 * The two `Array.prototype` methods whose results the client relies on:
 * `filter` (a stable selection) and `sort` with a comparator. The engine's
 * sort is stable (ECMA-262 since 2019); it is modelled by a stable insertion
 * sort, and `after(a, b)` stands for "the comparator returns a positive number
 * for (a, b)", the only outcome that moves `a` behind `b`.
 */
module JsArray {

  /** `r` can be obtained from `s` by deleting elements: order is preserved. */
  ghost predicate IsSubsequence<T>(r: seq<T>, s: seq<T>)
    decreases |s|
  {
    r == [] || (s != [] && if r[0] == s[0] then IsSubsequence(r[1..], s[1..]) else IsSubsequence(r, s[1..]))
  }

  lemma {:induction false} IsSubsequenceRefl<T>(s: seq<T>)
    ensures IsSubsequence(s, s)
  {
    if s != [] {
      IsSubsequenceRefl(s[1..]);
    }
  }

  /** A subsequence of the tail is a subsequence of the whole. */
  lemma {:induction false} IsSubsequenceCons<T>(r: seq<T>, s: seq<T>)
    requires s != [] && IsSubsequence(r, s[1..])
    ensures IsSubsequence(r, s)
    decreases |s|, 0
  {
    if r != [] && r[0] == s[0] {
      IsSubsequenceDropFirst(r, s[1..]);
    }
  }

  lemma {:induction false} IsSubsequenceDropFirst<T>(r: seq<T>, s: seq<T>)
    requires r != [] && IsSubsequence(r, s)
    ensures IsSubsequence(r[1..], s)
    decreases |s|, 1
  {
    if r[0] == s[0] {
      IsSubsequenceCons(r[1..], s);
    } else {
      IsSubsequenceDropFirst(r, s[1..]);
      IsSubsequenceCons(r[1..], s);
    }
  }

  lemma {:induction false} IsSubsequenceTrans<T>(a: seq<T>, b: seq<T>, c: seq<T>)
    requires IsSubsequence(a, b) && IsSubsequence(b, c)
    ensures IsSubsequence(a, c)
    decreases |c|
  {
    if a != [] {
      if b[0] == c[0] {
        if a[0] == b[0] {
          IsSubsequenceTrans(a[1..], b[1..], c[1..]);
        } else {
          IsSubsequenceTrans(a, b[1..], c[1..]);
        }
      } else {
        IsSubsequenceTrans(a, b, c[1..]);
        IsSubsequenceCons(a, c);
      }
    }
  }

  /** `s.filter(p)`: every element satisfying `p`, as often as it occurs, in the original order. */
  function Filter<T(==,!new)>(s: seq<T>, p: T -> bool): (r: seq<T>)
    ensures forall x :: multiset(r)[x] == if p(x) then multiset(s)[x] else 0
    ensures IsSubsequence(r, s)
  {
    if s == [] then []
    else
      var rest := Filter(s[1..], p);
      assert s == [s[0]] + s[1..];
      if p(s[0]) then [s[0]] + rest else rest
  }

  lemma FilterMembers<T(!new)>(s: seq<T>, p: T -> bool)
    ensures forall x :: x in Filter(s, p) <==> x in s && p(x)
  {
    forall x ensures x in Filter(s, p) <==> x in s && p(x) {
      assert x in Filter(s, p) <==> multiset(Filter(s, p))[x] > 0;
      assert x in s <==> multiset(s)[x] > 0;
    }
  }

  // ------------------------------------------------------------------ sort

  /** Inserts `x`, the next element of the input, behind every element it is not strictly before. */
  function Insert<T>(x: T, r: seq<T>, after: (T, T) -> bool): (q: seq<T>)
    ensures multiset(q) == multiset(r) + multiset{x}
    decreases |r|
  {
    if r == [] then [x]
    else if after(r[|r| - 1], x) then
      assert r == r[..|r| - 1] + [r[|r| - 1]];
      Insert(x, r[..|r| - 1], after) + [r[|r| - 1]]
    else r + [x]
  }

  /** `s.sort(cmp)`, with `after(a, b)` meaning `cmp(a, b) > 0`. */
  function Sort<T>(s: seq<T>, after: (T, T) -> bool): (r: seq<T>)
    ensures multiset(r) == multiset(s)
  {
    if s == [] then []
    else
      assert s == s[..|s| - 1] + [s[|s| - 1]];
      Insert(s[|s| - 1], Sort(s[..|s| - 1], after), after)
  }

  /** The comparator `key(a) - key(b)`, taken as 0 whenever either side has no key. */
  function ByKey<T>(key: T -> real, has: T -> bool): (T, T) -> bool {
    (a, b) => has(a) && has(b) && key(a) > key(b)
  }

  ghost predicate SortedByKey<T>(r: seq<T>, key: T -> real) {
    forall i, j :: 0 <= i < j < |r| ==> key(r[i]) <= key(r[j])
  }

  lemma {:induction false} InsertSorted<T>(x: T, r: seq<T>, key: T -> real, has: T -> bool)
    requires has(x) && forall i :: 0 <= i < |r| ==> has(r[i])
    requires SortedByKey(r, key)
    ensures SortedByKey(Insert(x, r, ByKey(key, has)), key)
    ensures |Insert(x, r, ByKey(key, has))| == |r| + 1
    ensures forall i :: 0 <= i < |r| + 1 ==> has(Insert(x, r, ByKey(key, has))[i])
    decreases |r|
  {
    var q := Insert(x, r, ByKey(key, has));
    if r != [] && ByKey(key, has)(r[|r| - 1], x) {
      var r' := r[..|r| - 1];
      InsertSorted(x, r', key, has);
      var q' := Insert(x, r', ByKey(key, has));
      assert q == q' + [r[|r| - 1]];
      assert x in multiset(q');
      forall i | 0 <= i < |q'| ensures key(q'[i]) <= key(r[|r| - 1]) {
        assert q'[i] in multiset(r') + multiset{x};
        if q'[i] != x {
          assert q'[i] in r';
        }
      }
    }
  }

  /** When every element has a key, the sort orders by ascending key. */
  lemma {:induction false} SortSorted<T>(s: seq<T>, key: T -> real, has: T -> bool)
    requires forall i :: 0 <= i < |s| ==> has(s[i])
    ensures SortedByKey(Sort(s, ByKey(key, has)), key)
    ensures |Sort(s, ByKey(key, has))| == |s|
    ensures forall i :: 0 <= i < |s| ==> has(Sort(s, ByKey(key, has))[i])
  {
    if s != [] {
      SortSorted(s[..|s| - 1], key, has);
      InsertSorted(s[|s| - 1], Sort(s[..|s| - 1], ByKey(key, has)), key, has);
    }
  }

  /** The index of the first element with the least key. */
  function FirstMin<T>(s: seq<T>, key: T -> real): (i: nat)
    requires s != []
    ensures i < |s|
    ensures forall j :: 0 <= j < |s| ==> key(s[i]) <= key(s[j])
    ensures forall j :: 0 <= j < i ==> key(s[i]) < key(s[j])
  {
    if |s| == 1 then 0
    else
      var i := FirstMin(s[..|s| - 1], key);
      if key(s[i]) > key(s[|s| - 1]) then |s| - 1 else i
  }

  lemma {:induction false} InsertHead<T>(x: T, r: seq<T>, key: T -> real, has: T -> bool)
    requires r != []
    requires has(x) && forall i :: 0 <= i < |r| ==> has(r[i])
    requires SortedByKey(r, key)
    ensures Insert(x, r, ByKey(key, has))[0] == if key(r[0]) > key(x) then x else r[0]
    decreases |r|
  {
    if ByKey(key, has)(r[|r| - 1], x) && |r| > 1 {
      InsertHead(x, r[..|r| - 1], key, has);
    }
  }

  /**
   * Stability at the head: when every element has a key, the first element of
   * the sorted result is the EARLIEST element of the input with the least key.
   */
  lemma {:induction false} SortHead<T>(s: seq<T>, key: T -> real, has: T -> bool)
    requires s != []
    requires forall i :: 0 <= i < |s| ==> has(s[i])
    ensures Sort(s, ByKey(key, has)) != []
    ensures Sort(s, ByKey(key, has))[0] == s[FirstMin(s, key)]
  {
    SortSorted(s, key, has);
    var init := s[..|s| - 1];
    if init != [] {
      SortHead(init, key, has);
      SortSorted(init, key, has);
      InsertHead(s[|s| - 1], Sort(init, ByKey(key, has)), key, has);
    }
  }
}
