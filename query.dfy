/** The part of the Mongo query engine the handlers use: `findOne` (the first match in
    store order), `find` (the matches in store order), `sort` on one date field, and
    `limit`. A missing date sorts before every present date, as in Mongo. */
module Query {
  import opened Common

  /** The index of the first element satisfying `p`, if any. */
  function First<T>(s: seq<T>, p: T -> bool): (r: Option<nat>)
    ensures r.Some? ==> r.value < |s| && p(s[r.value])
    ensures r.Some? ==> forall j :: 0 <= j < r.value ==> !p(s[j])
    ensures r.None? ==> forall j :: 0 <= j < |s| ==> !p(s[j])
  {
    if s == [] then None
    else if p(s[0]) then Some(0)
    else match First(s[1..], p)
      case None => None
      case Some(k) => Some(k + 1)
  }

  /** `findOne`: the first element satisfying `p`, if any. */
  function FindOne<T>(s: seq<T>, p: T -> bool): (r: Option<T>)
    ensures r.Some? ==> r.value in s && p(r.value)
    ensures r.None? ==> forall i :: 0 <= i < |s| ==> !p(s[i])
  {
    match First(s, p)
    case None => None
    case Some(i) => Some(s[i])
  }

  /** `save()` of a loaded document: every element satisfying `p` is replaced by `x`, and
      the others stay where they are. */
  function ReplaceWhere<T>(s: seq<T>, p: T -> bool, x: T): (r: seq<T>)
    ensures |r| == |s|
    ensures forall i :: 0 <= i < |s| ==> r[i] == if p(s[i]) then x else s[i]
  {
    seq(|s|, i requires 0 <= i < |s| => if p(s[i]) then x else s[i])
  }

  /** The elements satisfying `p`, in their order in `s`. */
  function Filter<T>(s: seq<T>, p: T -> bool): (r: seq<T>)
    ensures |r| <= |s|
    ensures forall i :: 0 <= i < |r| ==> p(r[i])
    ensures multiset(r) <= multiset(s)
    ensures forall i :: 0 <= i < |r| ==> r[i] in s
    ensures forall i :: 0 <= i < |s| && p(s[i]) ==> s[i] in r
  {
    if s == [] then []
    else
      assert s == [s[0]] + s[1..];
      if p(s[0]) then [s[0]] + Filter(s[1..], p) else Filter(s[1..], p)
  }

  /** `find` keeps every match as often as the store holds it and drops every other
      element entirely. */
  lemma {:induction false} FilterCount<T>(s: seq<T>, p: T -> bool, x: T)
    ensures multiset(Filter(s, p))[x] == if p(x) then multiset(s)[x] else 0
    decreases |s|
  {
    if s != [] {
      assert s == [s[0]] + s[1..];
      FilterCount(s[1..], p, x);
      assert multiset(s) == multiset{s[0]} + multiset(s[1..]);
    }
  }

  /** Filtering keeps store order: the matches of a concatenation are the matches of its
      first part followed by those of its second part. */
  lemma {:induction false} FilterAppend<T>(a: seq<T>, b: seq<T>, p: T -> bool)
    ensures Filter(a + b, p) == Filter(a, p) + Filter(b, p)
    decreases |a|
  {
    if a == [] {
      assert a + b == b;
    } else {
      assert (a + b)[0] == a[0];
      assert (a + b)[1..] == a[1..] + b;
      FilterAppend(a[1..], b, p);
    }
  }

  /** The order of two optional dates in an ascending Mongo sort. */
  predicate LeKey(a: Option<Time>, b: Option<Time>) {
    a.None? || (b.Some? && a.value <= b.value)
  }

  /** `a` may come before `b` in a sort on that key, ascending or descending. */
  predicate InOrder(a: Option<Time>, b: Option<Time>, descending: bool) {
    if descending then LeKey(b, a) else LeKey(a, b)
  }

  predicate Sorted<T>(s: seq<T>, key: T -> Option<Time>, descending: bool) {
    forall i, j :: 0 <= i < j < |s| ==> InOrder(key(s[i]), key(s[j]), descending)
  }

  function Insert<T>(x: T, s: seq<T>, key: T -> Option<Time>, descending: bool): (r: seq<T>)
    requires Sorted(s, key, descending)
    ensures Sorted(r, key, descending)
    ensures multiset(r) == multiset(s) + multiset{x}
    ensures |r| == |s| + 1
  {
    if s == [] || InOrder(key(x), key(s[0]), descending) then [x] + s
    else
      var rest := Insert(x, s[1..], key, descending);
      assert multiset(s) == multiset{s[0]} + multiset(s[1..]) by {
        assert s == [s[0]] + s[1..];
      }
      HeadPrecedesTail(s, key, descending);
      PrecedesAll(s[0], x, s[1..], rest, key, descending);
      ConsSorted(s[0], rest, key, descending);
      [s[0]] + rest
  }

  /** In a sorted sequence the head may come before every later element. */
  lemma HeadPrecedesTail<T>(s: seq<T>, key: T -> Option<Time>, descending: bool)
    requires Sorted(s, key, descending) && s != []
    ensures forall y :: y in s[1..] ==> InOrder(key(s[0]), key(y), descending)
  {
    forall y | y in s[1..] ensures InOrder(key(s[0]), key(y), descending) {
      var m :| 0 <= m < |s[1..]| && s[1..][m] == y;
      assert s[1 + m] == y;
    }
  }

  /** A sorted sequence stays sorted behind an element that may precede all of it. */
  lemma ConsSorted<T>(h: T, r: seq<T>, key: T -> Option<Time>, descending: bool)
    requires Sorted(r, key, descending)
    requires forall k :: 0 <= k < |r| ==> InOrder(key(h), key(r[k]), descending)
    ensures Sorted([h] + r, key, descending)
  {
    var c := [h] + r;
    forall i, j | 0 <= i < j < |c| ensures InOrder(key(c[i]), key(c[j]), descending) {
      if i == 0 {
        assert c[j] == r[j - 1];
      } else {
        assert c[i] == r[i - 1] && c[j] == r[j - 1];
      }
    }
  }

  /** An element that may come before `x` and before every element of `s` may come
      before every element of a rearrangement of `s` with `x`. */
  lemma PrecedesAll<T>(h: T, x: T, s: seq<T>, r: seq<T>, key: T -> Option<Time>, descending: bool)
    requires InOrder(key(h), key(x), descending)
    requires forall y :: y in s ==> InOrder(key(h), key(y), descending)
    requires multiset(r) == multiset(s) + multiset{x}
    ensures forall k :: 0 <= k < |r| ==> InOrder(key(h), key(r[k]), descending)
  {
    forall k | 0 <= k < |r|
      ensures InOrder(key(h), key(r[k]), descending)
    {
      assert r[k] in multiset(r);
      assert r[k] == x || r[k] in multiset(s);
    }
  }

  /** `sort({field: 1})` or `sort({field: -1})`: a sorted rearrangement of `s`. */
  function Sort<T>(s: seq<T>, key: T -> Option<Time>, descending: bool): (r: seq<T>)
    ensures Sorted(r, key, descending)
    ensures multiset(r) == multiset(s)
    ensures |r| == |s|
  {
    if s == [] then []
    else
      assert s == [s[0]] + s[1..];
      Insert(s[0], Sort(s[1..], key, descending), key, descending)
  }

  /** `limit(n)`: the first `n` elements, or all of them when there are fewer. */
  function Take<T>(s: seq<T>, n: nat): (r: seq<T>)
    ensures |r| == if |s| < n then |s| else n
    ensures r == s[..|r|]
  {
    if |s| <= n then s else s[..n]
  }
}
