/** The array operations the pages apply to their lists: `filter`, `map` by
    id, `new Set(...)` de-duplication, `flatMap`, `slice(0, n)` and `sort`. */
module Collections {
  import opened Wrappers

  // ---------------------------------------------------------------------
  // Order-preserving selection (`filter`)
  // ---------------------------------------------------------------------

  /** `a` can be obtained from `b` by deleting elements. */
  predicate IsSubsequence<T(==)>(a: seq<T>, b: seq<T>)
    decreases |b|
  {
    a == [] ||
    (b != [] && ((a[0] == b[0] && IsSubsequence(a[1..], b[1..])) || IsSubsequence(a, b[1..])))
  }

  /** `s.filter(keep)`: the elements satisfying `keep`, in their original order. */
  function Filter<T(==)>(s: seq<T>, keep: T -> bool): (r: seq<T>)
    ensures forall i :: 0 <= i < |r| ==> keep(r[i]) && r[i] in s
    ensures forall i :: 0 <= i < |s| && keep(s[i]) ==> s[i] in r
    ensures |r| <= |s|
    decreases |s|
  {
    if s == [] then []
    else
      var rest := Filter(s[1..], keep);
      if keep(s[0]) then
        assert ([s[0]] + rest)[1..] == rest;
        [s[0]] + rest
      else rest
  }

  /** Filtering only deletes elements: the order of what is kept is the
      original order. */
  lemma {:induction false} FilterIsSubsequence<T>(s: seq<T>, keep: T -> bool)
    ensures IsSubsequence(Filter(s, keep), s)
    decreases |s|
  {
    if s != [] {
      FilterIsSubsequence(s[1..], keep);
      var r := Filter(s, keep);
      if keep(s[0]) {
        assert r[0] == s[0] && r[1..] == Filter(s[1..], keep);
      }
    }
  }

  /** A filter that every element passes keeps the whole list. */
  lemma {:induction false} FilterAll<T>(s: seq<T>, keep: T -> bool)
    requires forall i :: 0 <= i < |s| ==> keep(s[i])
    ensures Filter(s, keep) == s
    decreases |s|
  {
    if s != [] {
      FilterAll(s[1..], keep);
      assert [s[0]] + s[1..] == s;
    }
  }

  /** Two conditions that agree on every element filter alike. */
  lemma {:induction false} FilterSame<T>(s: seq<T>, p: T -> bool, q: T -> bool)
    requires forall i :: 0 <= i < |s| ==> p(s[i]) == q(s[i])
    ensures Filter(s, p) == Filter(s, q)
    decreases |s|
  {
    if s != [] {
      FilterSame(s[1..], p, q);
    }
  }

  /** Both conditions hold. */
  function Both<T>(p: T -> bool, q: T -> bool): T -> bool {
    x => p(x) && q(x)
  }

  /** Filtering twice is filtering once by both conditions. */
  lemma {:induction false} FilterFilter<T>(s: seq<T>, p: T -> bool, q: T -> bool)
    ensures Filter(Filter(s, p), q) == Filter(s, Both(p, q))
    decreases |s|
  {
    if s != [] {
      FilterFilter(s[1..], p, q);
      if p(s[0]) {
        assert Filter(s, p)[1..] == Filter(s[1..], p);
      }
    }
  }

  /** Filtering distributes over concatenation. */
  lemma {:induction false} FilterAppend<T>(a: seq<T>, b: seq<T>, keep: T -> bool)
    ensures Filter(a + b, keep) == Filter(a, keep) + Filter(b, keep)
    decreases |a|
  {
    if a == [] {
      assert a + b == b;
    } else {
      var ab := a + b;
      assert ab[0] == a[0] && ab[1..] == a[1..] + b;
      FilterAppend(a[1..], b, keep);
      var fa, fb := Filter(a[1..], keep), Filter(b, keep);
      if keep(a[0]) {
        assert Filter(ab, keep) == [a[0]] + (fa + fb);
        assert Filter(a, keep) == [a[0]] + fa;
        assert [a[0]] + (fa + fb) == ([a[0]] + fa) + fb;
      } else {
        assert Filter(ab, keep) == fa + fb;
        assert Filter(a, keep) == fa;
      }
    }
  }

  /** The number of elements satisfying `p` (`s.filter(p).length`). */
  function CountWhere<T(==)>(s: seq<T>, p: T -> bool): nat {
    |Filter(s, p)|
  }

  /** Appending one element raises the count by one exactly when it passes. */
  lemma CountWhereAppend<T>(s: seq<T>, x: T, p: T -> bool)
    ensures CountWhere(s + [x], p) == CountWhere(s, p) + (if p(x) then 1 else 0)
  {
    FilterAppend(s, [x], p);
  }

  /** `s.find(p)`: the first element satisfying `p`, `None` for `undefined`. */
  function Find<T(==)>(s: seq<T>, p: T -> bool): (r: Option<T>)
    ensures r.None? <==> forall i :: 0 <= i < |s| ==> !p(s[i])
    ensures r.Some? ==> exists k :: 0 <= k < |s| && s[k] == r.value && p(s[k]) &&
                                   forall j :: 0 <= j < k ==> !p(s[j])
    decreases |s|
  {
    if s == [] then None
    else if p(s[0]) then Some(s[0])
    else
      var r := Find(s[1..], p);
      assert r.Some? ==> exists k :: 0 <= k < |s| && s[k] == r.value && p(s[k]) &&
                                    forall j :: 0 <= j < k ==> !p(s[j]) by {
        if r.Some? {
          var k :| 0 <= k < |s[1..]| && s[1..][k] == r.value && p(s[1..][k]) &&
                   forall j :: 0 <= j < k ==> !p(s[1..][j]);
          assert s[k + 1] == r.value;
          assert forall j :: 0 <= j < k + 1 ==> !p(s[j]);
        }
      }
      r
  }

  // ---------------------------------------------------------------------
  // Replacement by a matching key (`s.map(e => match(e) ? v : e)`)
  // ---------------------------------------------------------------------

  /** Replace every element selected by `hit` with `v`, keeping positions. */
  function ReplaceWhere<T>(s: seq<T>, hit: T -> bool, v: T): (r: seq<T>)
    ensures |r| == |s|
    ensures forall i :: 0 <= i < |s| ==> r[i] == (if hit(s[i]) then v else s[i])
    decreases |s|
  {
    if s == [] then [] else [if hit(s[0]) then v else s[0]] + ReplaceWhere(s[1..], hit, v)
  }

  /** Apply `f` to every element selected by `hit`, keeping positions. */
  function MapWhere<T>(s: seq<T>, hit: T -> bool, f: T -> T): (r: seq<T>)
    ensures |r| == |s|
    ensures forall i :: 0 <= i < |s| ==> r[i] == (if hit(s[i]) then f(s[i]) else s[i])
    decreases |s|
  {
    if s == [] then [] else [if hit(s[0]) then f(s[0]) else s[0]] + MapWhere(s[1..], hit, f)
  }

  /** At most one element is selected by `hit`: the situation of an id
      looked up in a list whose ids are distinct. */
  predicate AtMostOne<T>(s: seq<T>, hit: T -> bool) {
    forall i, j :: 0 <= i < |s| && 0 <= j < |s| && hit(s[i]) && hit(s[j]) ==> i == j
  }

  /** When exactly one position `k` is selected, replacing touches that position
      only: it now holds `v` and every other position is as before. */
  lemma ReplaceOnlyOne<T>(s: seq<T>, hit: T -> bool, v: T, k: nat)
    requires k < |s| && hit(s[k]) && AtMostOne(s, hit)
    ensures ReplaceWhere(s, hit, v)[k] == v
    ensures forall i :: 0 <= i < |s| && i != k ==> ReplaceWhere(s, hit, v)[i] == s[i]
    ensures ReplaceWhere(s, hit, v) == s[k := v]
  {
  }

  /** When every position but `k` passes, filtering removes position `k` and
      keeps the others in order. */
  lemma {:induction false} RemoveOnlyOne<T>(s: seq<T>, keep: T -> bool, k: nat)
    requires k < |s| && !keep(s[k])
    requires forall i :: 0 <= i < |s| && i != k ==> keep(s[i])
    ensures Filter(s, keep) == s[..k] + s[k + 1..]
    decreases k
  {
    if k == 0 {
      FilterAll(s[1..], keep);
    } else {
      RemoveOnlyOne(s[1..], keep, k - 1);
      assert s[..k] + s[k + 1..] == [s[0]] + (s[1..][..k - 1] + s[1..][k..]);
    }
  }

  /** When nothing is selected, replacement leaves the list unchanged. */
  lemma ReplaceNone<T>(s: seq<T>, hit: T -> bool, v: T)
    requires forall i :: 0 <= i < |s| ==> !hit(s[i])
    ensures ReplaceWhere(s, hit, v) == s
  {
  }

  // ---------------------------------------------------------------------
  // Distinct values in first-occurrence order (`Array.from(new Set(s))`)
  // ---------------------------------------------------------------------

  predicate NoDuplicates<T(==)>(s: seq<T>) {
    forall i, j :: 0 <= i < j < |s| ==> s[i] != s[j]
  }

  /** Position of the first occurrence of `x` in `s`. */
  function FirstIndex<T(==)>(s: seq<T>, x: T): (k: nat)
    requires x in s
    ensures k < |s| && s[k] == x && x !in s[..k]
  {
    if s[0] == x then 0
    else
      var k := FirstIndex(s[1..], x) + 1;
      assert s[..k] == [s[0]] + s[1..][..k - 1];
      k
  }

  lemma {:induction false} FirstIndexExtend<T>(s: seq<T>, y: T, x: T)
    requires x in s
    ensures FirstIndex(s + [y], x) == FirstIndex(s, x)
  {
    assert (s + [y])[0] == s[0];
    if s[0] != x {
      assert (s + [y])[1..] == s[1..] + [y];
      FirstIndexExtend(s[1..], y, x);
    }
  }

  lemma {:induction false} FirstIndexLast<T>(s: seq<T>, x: T)
    requires x !in s
    ensures FirstIndex(s + [x], x) == |s|
  {
    if s != [] {
      assert (s + [x])[0] == s[0];
      assert (s + [x])[1..] == s[1..] + [x];
      FirstIndexLast(s[1..], x);
    }
  }

  /** `Array.from(new Set(s))`: each value once, in order of first appearance. */
  function Distinct<T(==)>(s: seq<T>): (r: seq<T>)
    ensures NoDuplicates(r)
    ensures forall i :: 0 <= i < |r| ==> r[i] in s
    ensures forall i :: 0 <= i < |s| ==> s[i] in r
    ensures forall i, j :: 0 <= i < j < |r| ==> FirstIndex(s, r[i]) < FirstIndex(s, r[j])
    decreases |s|
  {
    if s == [] then []
    else
      var init := s[..|s| - 1];
      var last := s[|s| - 1];
      assert s == init + [last];
      var r := Distinct(init);
      forall x | x in init ensures FirstIndex(s, x) == FirstIndex(init, x) {
        FirstIndexExtend(init, last, x);
      }
      if last in r then r
      else
        FirstIndexLast(init, last);
        r + [last]
  }

  /** A list that already holds each value once is its own de-duplication. */
  lemma {:induction false} DistinctOfDistinct<T>(s: seq<T>)
    requires NoDuplicates(s)
    ensures Distinct(s) == s
    decreases |s|
  {
    if s != [] {
      var init := s[..|s| - 1];
      DistinctOfDistinct(init);
      assert s == init + [s[|s| - 1]];
    }
  }

  // ---------------------------------------------------------------------
  // `flatMap` and `slice(0, n)`
  // ---------------------------------------------------------------------

  /** Concatenation of a list of lists, as `flatMap` builds it. */
  function Flatten<T>(ss: seq<seq<T>>): seq<T>
    decreases |ss|
  {
    if ss == [] then [] else ss[0] + Flatten(ss[1..])
  }

  /** A value occurs in the flattening exactly when it occurs in one of the lists. */
  lemma {:induction false} InFlatten<T>(ss: seq<seq<T>>, x: T)
    ensures x in Flatten(ss) <==> exists i :: 0 <= i < |ss| && x in ss[i]
    decreases |ss|
  {
    if ss != [] {
      InFlatten(ss[1..], x);
      if x in Flatten(ss[1..]) {
        var i :| 0 <= i < |ss[1..]| && x in ss[1..][i];
        assert x in ss[i + 1];
      }
      if exists i :: 0 <= i < |ss| && x in ss[i] {
        var i :| 0 <= i < |ss| && x in ss[i];
        if i > 0 {
          assert x in ss[1..][i - 1];
        }
      }
    }
  }

  /** `Array.from(new Set(ss.flat()))`: each value of any of the lists once. */
  lemma DistinctFlatten<T>(ss: seq<seq<T>>)
    ensures NoDuplicates(Distinct(Flatten(ss)))
    ensures forall x :: x in Distinct(Flatten(ss)) <==> exists i :: 0 <= i < |ss| && x in ss[i]
  {
    var flat := Flatten(ss);
    var d := Distinct(flat);
    forall x ensures x in d <==> exists i :: 0 <= i < |ss| && x in ss[i] {
      InFlatten(ss, x);
      if x in d {
        var k :| 0 <= k < |d| && d[k] == x;
      }
      if x in flat {
        var k :| 0 <= k < |flat| && flat[k] == x;
      }
    }
  }

  /** `s.slice(0, n)`: the first `n` elements, or all of them when fewer. */
  function Take<T>(s: seq<T>, n: nat): (r: seq<T>)
    ensures |r| <= n && |r| <= |s|
    ensures |s| <= n ==> r == s
    ensures n <= |s| ==> |r| == n
    ensures forall i :: 0 <= i < |r| ==> r[i] == s[i]
  {
    if |s| <= n then s else s[..n]
  }

  // ---------------------------------------------------------------------
  // `sort` with a comparator
  // ---------------------------------------------------------------------

  /** `before(a, b)`: the comparator allows `a` ahead of `b` (it returns `<= 0`). */
  ghost predicate Total<T(!new)>(before: (T, T) -> bool) {
    forall a, b :: before(a, b) || before(b, a)
  }

  predicate Sorted<T>(s: seq<T>, before: (T, T) -> bool) {
    forall i :: 0 <= i < |s| - 1 ==> before(s[i], s[i + 1])
  }

  /** Insert `x` ahead of the first element it may precede. */
  function Insert<T(!new)>(x: T, s: seq<T>, before: (T, T) -> bool): (r: seq<T>)
    ensures |r| == |s| + 1
    ensures multiset(r) == multiset(s) + multiset{x}
    ensures s != [] ==> r[0] == x || r[0] == s[0]
    ensures s == [] ==> r == [x]
    ensures Sorted(s, before) && Total(before) ==> Sorted(r, before)
    decreases |s|
  {
    if s == [] then [x]
    else if before(x, s[0]) then [x] + s
    else
      var rest := Insert(x, s[1..], before);
      assert s == [s[0]] + s[1..];
      assert Sorted(s, before) && Total(before) ==> Sorted([s[0]] + rest, before) by {
        if Sorted(s, before) && Total(before) {
          assert before(s[0], x);
          assert Sorted(s[1..], before);
          assert before(s[0], rest[0]);
        }
      }
      [s[0]] + rest
  }

  /** `s.sort(cmp)` as an insertion sort: a permutation of `s`, sorted
      whenever the comparator is total. */
  function SortBy<T(!new)>(s: seq<T>, before: (T, T) -> bool): (r: seq<T>)
    ensures multiset(r) == multiset(s)
    ensures |r| == |s|
    ensures Total(before) ==> Sorted(r, before)
    decreases |s|
  {
    if s == [] then []
    else
      assert s == [s[0]] + s[1..];
      Insert(s[0], SortBy(s[1..], before), before)
  }

  /** With a transitive comparator, adjacent order gives order between any two. */
  lemma {:induction false} SortedPairwise<T>(s: seq<T>, before: (T, T) -> bool, i: nat, j: nat)
    requires Sorted(s, before)
    requires forall a, b, c :: before(a, b) && before(b, c) ==> before(a, c)
    requires i < j < |s|
    ensures before(s[i], s[j])
    decreases j - i
  {
    if i + 1 < j {
      SortedPairwise(s, before, i + 1, j);
    }
  }
}
