/** The list operations the code leans on: `Array.prototype.find`,
    `Array.prototype.filter` and a comparator sort, plus the code-point order on
    strings that the store's `ORDER BY` uses. */
module Ordering {
  import opened Common

  /** The index of the first element satisfying `p`, as `find`/`findIndex` and a
      store `first()` over rows in table order return it. */
  function FindFirst<T>(xs: seq<T>, p: T -> bool): (r: Option<nat>)
    ensures r.Some? ==> r.value < |xs| && p(xs[r.value])
    ensures r.Some? ==> forall j :: 0 <= j < r.value ==> !p(xs[j])
    ensures r.None? <==> forall j :: 0 <= j < |xs| ==> !p(xs[j])
  {
    if xs == [] then None
    else if p(xs[0]) then Some(0)
    else match FindFirst(xs[1..], p)
      case None => None
      case Some(k) => Some(k + 1)
  }

  /** The elements satisfying `p`, in their original order. */
  function Filter<T>(xs: seq<T>, p: T -> bool): (r: seq<T>)
    ensures |r| <= |xs|
    ensures forall i :: 0 <= i < |r| ==> p(r[i])
    ensures forall i :: 0 <= i < |xs| && p(xs[i]) ==> multiset(r)[xs[i]] == multiset(xs)[xs[i]]
    ensures multiset(r) <= multiset(xs)
  {
    if xs == [] then []
    else
      assert xs == [xs[0]] + xs[1..];
      if p(xs[0]) then [xs[0]] + Filter(xs[1..], p) else Filter(xs[1..], p)
  }

  /** Filtering keeps a list whose every element passes as it is. */
  lemma {:induction false} FilterKeepsAll<T>(xs: seq<T>, p: T -> bool)
    requires forall i :: 0 <= i < |xs| ==> p(xs[i])
    ensures Filter(xs, p) == xs
  {
    if xs != [] {
      var rest := xs[1..];
      assert Filter(rest, p) == rest by {
        forall i | 0 <= i < |rest| ensures p(rest[i]) {
          assert rest[i] == xs[i + 1];
        }
        FilterKeepsAll(rest, p);
      }
      assert p(xs[0]);
      assert xs == [xs[0]] + rest;
    }
  }

  /** Filtering a list whose elements all pass but the one at `k` drops
      exactly that element. */
  lemma {:induction false} FilterDropsOne<T>(xs: seq<T>, p: T -> bool, k: nat)
    requires k < |xs| && !p(xs[k])
    requires forall i :: 0 <= i < |xs| && i != k ==> p(xs[i])
    ensures multiset(xs) == multiset(Filter(xs, p)) + multiset{xs[k]}
    decreases |xs|, 1
  {
    if k == 0 {
      FilterDropsHead(xs, p);
    } else {
      FilterDropsLater(xs, p, k);
    }
  }

  /** The case where the dropped element comes first. */
  lemma {:induction false} FilterDropsHead<T>(xs: seq<T>, p: T -> bool)
    requires xs != [] && !p(xs[0])
    requires forall i :: 0 < i < |xs| ==> p(xs[i])
    ensures multiset(xs) == multiset(Filter(xs, p)) + multiset{xs[0]}
  {
    var rest := xs[1..];
    assert xs == [xs[0]] + rest;
    assert Filter(rest, p) == rest by {
      forall i | 0 <= i < |rest| ensures p(rest[i]) {
        assert rest[i] == xs[i + 1];
      }
      FilterKeepsAll(rest, p);
    }
    assert Filter(xs, p) == rest;
    assert multiset(xs) == multiset{xs[0]} + multiset(rest);
  }

  /** The case where the dropped element comes later: the first element is
      kept and the rest is filtered alike. */
  lemma {:induction false} FilterDropsLater<T>(xs: seq<T>, p: T -> bool, k: nat)
    requires 0 < k < |xs| && !p(xs[k])
    requires forall i :: 0 <= i < |xs| && i != k ==> p(xs[i])
    ensures multiset(xs) == multiset(Filter(xs, p)) + multiset{xs[k]}
    decreases |xs|, 0
  {
    var rest := xs[1..];
    assert xs == [xs[0]] + rest;
    assert multiset(rest) == multiset(Filter(rest, p)) + multiset{xs[k]} by {
      forall i | 0 <= i < |rest| && i != k - 1 ensures p(rest[i]) {
        assert rest[i] == xs[i + 1];
      }
      assert rest[k - 1] == xs[k];
      FilterDropsOne(rest, p, k - 1);
    }
    assert Filter(xs, p) == [xs[0]] + Filter(rest, p);
  }

  ghost predicate TotalPreorder<T(!new)>(le: (T, T) -> bool) {
    && (forall x, y :: le(x, y) || le(y, x))
    && (forall x, y, z :: le(x, y) && le(y, z) ==> le(x, z))
  }

  ghost predicate SortedBy<T>(xs: seq<T>, le: (T, T) -> bool) {
    forall i, j :: 0 <= i < j < |xs| ==> le(xs[i], xs[j])
  }

  /** Places `x` before the first element it is not after. */
  function Insert<T>(x: T, xs: seq<T>, le: (T, T) -> bool): (r: seq<T>)
    ensures multiset(r) == multiset(xs) + multiset{x}
    ensures |r| == |xs| + 1
  {
    if xs == [] then [x]
    else if le(x, xs[0]) then [x] + xs
    else
      assert xs == [xs[0]] + xs[1..];
      [xs[0]] + Insert(x, xs[1..], le)
  }

  /** An insertion sort under a comparator: one admissible result of
      `Array.prototype.sort` with a consistent comparator, and of an
      `ORDER BY`. */
  function Sort<T>(xs: seq<T>, le: (T, T) -> bool): (r: seq<T>)
    ensures multiset(r) == multiset(xs)
    ensures |r| == |xs|
  {
    if xs == [] then []
    else
      assert xs == [xs[0]] + xs[1..];
      Insert(xs[0], Sort(xs[1..], le), le)
  }

  /** `Sort` keeps every element and adds none. */
  lemma SortPermutes<T>(xs: seq<T>, le: (T, T) -> bool)
    ensures forall i :: 0 <= i < |Sort(xs, le)| ==> Sort(xs, le)[i] in xs
    ensures forall j :: 0 <= j < |xs| ==> xs[j] in Sort(xs, le)
  {
    var s := Sort(xs, le);
    forall i | 0 <= i < |s| ensures s[i] in xs {
      assert s[i] in multiset(xs);
    }
    forall j | 0 <= j < |xs| ensures xs[j] in s {
      assert xs[j] in multiset(s);
    }
  }

  /** What bounds `x` and every element of `xs` from below bounds every
      element of the insertion. */
  lemma InsertLowerBound<T>(x: T, xs: seq<T>, le: (T, T) -> bool, lo: T)
    requires le(lo, x) && forall k :: 0 <= k < |xs| ==> le(lo, xs[k])
    ensures forall k :: 0 <= k < |Insert(x, xs, le)| ==> le(lo, Insert(x, xs, le)[k])
  {
    var r := Insert(x, xs, le);
    forall k | 0 <= k < |r| ensures le(lo, r[k]) {
      assert r[k] in multiset(r);
      if r[k] != x {
        assert r[k] in multiset(xs);
      }
    }
  }

  lemma {:induction false} InsertSorted<T(!new)>(x: T, xs: seq<T>, le: (T, T) -> bool)
    requires TotalPreorder(le) && SortedBy(xs, le)
    ensures SortedBy(Insert(x, xs, le), le)
  {
    if xs != [] && !le(x, xs[0]) {
      var tail := xs[1..];
      assert SortedBy(tail, le);
      InsertSorted(x, tail, le);
      var rest := Insert(x, tail, le);
      assert le(xs[0], x);
      forall k | 0 <= k < |tail| ensures le(xs[0], tail[k]) {
        assert tail[k] == xs[k + 1];
      }
      InsertLowerBound(x, tail, le, xs[0]);
      var r := [xs[0]] + rest;
      forall i, j | 0 <= i < j < |r| ensures le(r[i], r[j]) {
        if i == 0 { assert r[j] == rest[j - 1]; }
        else { assert r[i] == rest[i - 1] && r[j] == rest[j - 1]; }
      }
    }
  }

  /** `Sort` orders its result. */
  lemma {:induction false} SortSorted<T(!new)>(xs: seq<T>, le: (T, T) -> bool)
    requires TotalPreorder(le)
    ensures SortedBy(Sort(xs, le), le)
  {
    if xs != [] {
      SortSorted(xs[1..], le);
      InsertSorted(xs[0], Sort(xs[1..], le), le);
    }
  }

  /** Code-point (binary) order on strings: the order SQLite's default BINARY
      collation gives text stored as UTF-8. */
  predicate LexLe(a: string, b: string)
    decreases |a|
  {
    a == [] || (b != [] && (a[0] < b[0] || (a[0] == b[0] && LexLe(a[1..], b[1..]))))
  }

  lemma {:induction false} LexLeTotal(a: string, b: string)
    ensures LexLe(a, b) || LexLe(b, a)
    decreases |a|
  {
    if a != [] && b != [] && a[0] == b[0] {
      LexLeTotal(a[1..], b[1..]);
    }
  }

  lemma {:induction false} LexLeTransitive(a: string, b: string, c: string)
    requires LexLe(a, b) && LexLe(b, c)
    ensures LexLe(a, c)
    decreases |a|
  {
    if a != [] && b != [] && c != [] && a[0] == b[0] && b[0] == c[0] {
      LexLeTransitive(a[1..], b[1..], c[1..]);
    }
  }

  lemma {:induction false} LexLeAntisymmetric(a: string, b: string)
    requires LexLe(a, b) && LexLe(b, a)
    ensures a == b
    decreases |a|
  {
    if a != [] && b != [] {
      LexLeAntisymmetric(a[1..], b[1..]);
      assert a == [a[0]] + a[1..] && b == [b[0]] + b[1..];
    }
  }

  lemma LexLeTotalPreorder()
    ensures TotalPreorder(LexLe)
  {
    forall a, b ensures LexLe(a, b) || LexLe(b, a) { LexLeTotal(a, b); }
    forall a, b, c | LexLe(a, b) && LexLe(b, c) ensures LexLe(a, c) {
      LexLeTransitive(a, b, c);
    }
  }
}
