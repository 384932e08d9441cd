/** Sequence operations the source performs with `Array.prototype` methods:
    `filter`, `slice(0, n)`, and the stable `sort` with a comparator. */
module Seqs {

  /** `s.filter(p)`: the elements satisfying `p`, in their original order.
      Defined on the last element so that a left-to-right loop that pushes
      matching elements keeps `acc == Filter(s[..i], p)`. */
  function Filter<T>(s: seq<T>, p: T -> bool): (r: seq<T>)
    ensures |r| <= |s|
    ensures forall i :: 0 <= i < |r| ==> p(r[i])
  {
    if s == [] then []
    else Filter(s[..|s| - 1], p) + (if p(s[|s| - 1]) then [s[|s| - 1]] else [])
  }

  /** What a filter keeps is taken from its input, and it keeps every
      element that passes. */
  lemma {:induction false} FilterFacts<T>(s: seq<T>, p: T -> bool)
    ensures forall i :: 0 <= i < |Filter(s, p)| ==> Filter(s, p)[i] in s
    ensures forall i :: 0 <= i < |s| && p(s[i]) ==> s[i] in Filter(s, p)
    ensures multiset(Filter(s, p)) <= multiset(s)
  {
    if s != [] {
      var init := s[..|s| - 1];
      var x := s[|s| - 1];
      FilterFacts(init, p);
      assert s == init + [x];
      var prefix := Filter(init, p);
      var r := Filter(s, p);
      assert r == prefix + (if p(x) then [x] else []);
      forall i | 0 <= i < |r| ensures r[i] in s {
        if i < |prefix| {
          assert r[i] == prefix[i] && prefix[i] in init;
        }
      }
      forall i | 0 <= i < |s| && p(s[i]) ensures s[i] in r {
        if i < |init| {
          assert s[i] == init[i] && init[i] in prefix;
        }
      }
      assert multiset(r) == multiset(prefix) + multiset(if p(x) then [x] else []);
      assert multiset(s) == multiset(init) + multiset{x};
    }
  }

  lemma {:induction false} FilterAppend<T>(a: seq<T>, b: seq<T>, p: T -> bool)
    ensures Filter(a + b, p) == Filter(a, p) + Filter(b, p)
    decreases |b|
  {
    if b == [] {
      assert a + b == a;
    } else {
      var b' := b[..|b| - 1];
      var x := b[|b| - 1];
      var last := if p(x) then [x] else [];
      FilterAppend(a, b', p);
      assert Filter(a + b, p) == Filter(a + b', p) + last by {
        assert (a + b)[..|a + b| - 1] == a + b';
        assert (a + b)[|a + b| - 1] == x;
      }
      assert Filter(b, p) == Filter(b', p) + last;
      var fa, fb := Filter(a, p), Filter(b', p);
      assert (fa + fb) + last == fa + (fb + last);
    }
  }

  /** A filter keeps everything exactly when every element passes. */
  lemma {:induction false} FilterAll<T>(s: seq<T>, p: T -> bool)
    requires forall i :: 0 <= i < |s| ==> p(s[i])
    ensures Filter(s, p) == s
  {
    if s != [] {
      var init := s[..|s| - 1];
      var x := s[|s| - 1];
      assert s == init + [x];
      assert Filter(init, p) == init by {
        forall i | 0 <= i < |init| ensures p(init[i]) {
          assert init[i] == s[i];
        }
        FilterAll(init, p);
      }
      assert Filter(s, p) == Filter(init, p) + [x] by {
        assert p(x);
      }
    }
  }

  /** A filter keeps nothing exactly when no element passes. */
  lemma {:induction false} FilterNone<T>(s: seq<T>, p: T -> bool)
    ensures Filter(s, p) == [] <==> forall i :: 0 <= i < |s| ==> !p(s[i])
  {
    if s != [] {
      var init := s[..|s| - 1];
      FilterNone(init, p);
      assert forall i :: 0 <= i < |init| ==> init[i] == s[i];
    }
  }

  /** `s.slice(0, n)` for a non-negative `n`. */
  function Take<T>(s: seq<T>, n: nat): (r: seq<T>)
    ensures |r| == if |s| <= n then |s| else n
    ensures r == s[..|r|]
  {
    if |s| <= n then s else s[..n]
  }

  /** `s.slice(0, k)` for any integer `k`: a negative end counts from the back. */
  function JsSlicePrefix<T>(s: seq<T>, k: int): (r: seq<T>)
    ensures k >= 0 ==> r == Take(s, k)
    ensures k < 0 ==> |r| == if |s| + k < 0 then 0 else |s| + k
    ensures r == s[..|r|]
  {
    if k >= 0 then Take(s, k)
    else if |s| + k < 0 then []
    else s[..|s| + k]
  }

  /** A comparator `le(a, b)` meaning "a may come before b" that is total and
      transitive, as the source's numeric comparators are. */
  ghost predicate TotalPreorder<T(!new)>(le: (T, T) -> bool)
  {
    && (forall a, b :: le(a, b) || le(b, a))
    && (forall a, b, c :: le(a, b) && le(b, c) ==> le(a, c))
  }

  ghost predicate SortedBy<T>(s: seq<T>, le: (T, T) -> bool)
  {
    forall i, j :: 0 <= i < j < |s| ==> le(s[i], s[j])
  }

  /** Inserts `x` in front of the first element it may precede. */
  function Insert<T>(x: T, s: seq<T>, le: (T, T) -> bool): (r: seq<T>)
    ensures |r| == |s| + 1
    ensures multiset(r) == multiset(s) + multiset{x}
  {
    if s == [] || le(x, s[0]) then [x] + s
    else
      assert s == [s[0]] + s[1..];
      [s[0]] + Insert(x, s[1..], le)
  }

  lemma {:induction false} InsertSorted<T(!new)>(x: T, s: seq<T>, le: (T, T) -> bool)
    requires TotalPreorder(le)
    requires SortedBy(s, le)
    ensures SortedBy(Insert(x, s, le), le)
  {
    if s == [] || le(x, s[0]) {
      var r := [x] + s;
      forall i, j | 0 <= i < j < |r| ensures le(r[i], r[j]) {
        if i == 0 && j > 1 {
          assert le(x, s[0]) && le(s[0], s[j - 1]);
        }
      }
    } else {
      InsertSorted(x, s[1..], le);
      var tail := Insert(x, s[1..], le);
      var r := [s[0]] + tail;
      assert le(s[0], x);
      forall j | 0 <= j < |tail| ensures le(s[0], tail[j]) {
        assert tail[j] in multiset(tail);
        assert tail[j] in multiset(s[1..]) + multiset{x};
        if tail[j] != x {
          assert tail[j] in multiset(s[1..]);
          var k :| 0 <= k < |s[1..]| && s[1..][k] == tail[j];
          assert s[k + 1] == tail[j];
        }
      }
      forall i, j | 0 <= i < j < |r| ensures le(r[i], r[j]) {
        if i == 0 {
          assert r[j] == tail[j - 1];
        } else {
          assert r[i] == tail[i - 1] && r[j] == tail[j - 1];
        }
      }
    }
  }

  /** The source's `sort(cmp)`: JavaScript's sort is stable, which this
      insertion sort also is (an element goes before the first element it
      may precede, hence before equal elements that followed it). */
  function SortBy<T(!new)>(s: seq<T>, le: (T, T) -> bool): (r: seq<T>)
    requires TotalPreorder(le)
    ensures |r| == |s|
    ensures multiset(r) == multiset(s)
    ensures SortedBy(r, le)
  {
    if s == [] then []
    else
      var rest := SortBy(s[1..], le);
      InsertSorted(s[0], rest, le);
      assert s == [s[0]] + s[1..];
      Insert(s[0], rest, le)
  }

  /** `sort(cmp).slice(0, n)`: the first `n` elements in comparator order. */
  function TopBy<T(!new)>(s: seq<T>, le: (T, T) -> bool, n: nat): (r: seq<T>)
    requires TotalPreorder(le)
    ensures |r| == if |s| <= n then |s| else n
    ensures SortedBy(r, le)
    ensures multiset(r) <= multiset(s)
    ensures |s| <= n ==> multiset(r) == multiset(s)
  {
    var sorted := SortBy(s, le);
    var r := Take(sorted, n);
    SortedPrefixPrecedesRest(sorted, |r|, le);
    r
  }

  /** A sub-multiset of a sequence whose elements all satisfy `p` has only
      elements satisfying `p`. */
  lemma SubMultisetKeeps<T>(r: seq<T>, s: seq<T>, p: T -> bool)
    requires multiset(r) <= multiset(s)
    requires forall i :: 0 <= i < |s| ==> p(s[i])
    ensures forall i :: 0 <= i < |r| ==> p(r[i])
  {
    forall i | 0 <= i < |r| ensures p(r[i]) {
      assert r[i] in multiset(r);
      var k :| 0 <= k < |s| && s[k] == r[i];
    }
  }

  /** Nothing left out of `TopBy` precedes strictly what was taken. */
  lemma TopByKeepsLeast<T(!new)>(s: seq<T>, le: (T, T) -> bool, n: nat)
    requires TotalPreorder(le)
    ensures var r := TopBy(s, le, n);
      forall x, y :: x in r && y in multiset(s) - multiset(r) ==> le(x, y)
  {
    var sorted := SortBy(s, le);
    SortedPrefixPrecedesRest(sorted, |TopBy(s, le, n)|, le);
  }

  lemma SortedPrefixPrecedesRest<T>(s: seq<T>, k: nat, le: (T, T) -> bool)
    requires k <= |s|
    requires SortedBy(s, le)
    ensures multiset(s[..k]) <= multiset(s)
    ensures multiset(s) - multiset(s[..k]) == multiset(s[k..])
    ensures forall x, y :: x in s[..k] && y in multiset(s) - multiset(s[..k]) ==> le(x, y)
  {
    assert s == s[..k] + s[k..];
    assert multiset(s) == multiset(s[..k]) + multiset(s[k..]);
    forall x, y | x in s[..k] && y in multiset(s) - multiset(s[..k]) ensures le(x, y) {
      assert y in multiset(s[k..]);
      assert y in s[k..];
      var i :| 0 <= i < k && s[i] == x;
      var j :| k <= j < |s| && s[j] == y;
    }
  }

  /** A filter keeps the order of what it keeps. */
  lemma {:induction false} FilterSortedBy<T>(s: seq<T>, p: T -> bool, le: (T, T) -> bool)
    requires SortedBy(s, le)
    ensures SortedBy(Filter(s, p), le)
  {
    if s != [] {
      var init := s[..|s| - 1];
      var last := s[|s| - 1];
      assert SortedBy(init, le) by {
        forall i, j | 0 <= i < j < |init| ensures le(init[i], init[j]) {
          assert init[i] == s[i] && init[j] == s[j];
        }
      }
      FilterSortedBy(init, p, le);
      FilterFacts(init, p);
      var prefix := Filter(init, p);
      if p(last) {
        var r := prefix + [last];
        forall i, j | 0 <= i < j < |r| ensures le(r[i], r[j]) {
          if j == |r| - 1 {
            assert r[i] in init;
            var k :| 0 <= k < |init| && init[k] == r[i];
            assert s[k] == init[k];
          } else {
            assert r[i] == prefix[i] && r[j] == prefix[j];
          }
        }
      }
    }
  }

  /** `s.map(f)`. */
  function Map<A, B>(s: seq<A>, f: A -> B): (r: seq<B>)
    ensures |r| == |s|
    ensures forall i :: 0 <= i < |s| ==> r[i] == f(s[i])
  {
    if s == [] then [] else [f(s[0])] + Map(s[1..], f)
  }

  lemma {:induction false} MapAppend<A, B>(a: seq<A>, b: seq<A>, f: A -> B)
    ensures Map(a + b, f) == Map(a, f) + Map(b, f)
  {
    assert Map(a + b, f) == Map(a, f) + Map(b, f);
  }

  /** Mapping one more element of a prefix appends its image. */
  lemma MapSnoc<A, B>(s: seq<A>, i: nat, f: A -> B)
    requires i < |s|
    ensures Map(s[..i + 1], f) == Map(s[..i], f) + [f(s[i])]
  {
    assert s[..i + 1] == s[..i] + [s[i]];
    MapAppend(s[..i], [s[i]], f);
  }

  /** Removing the element at `k` from a sequence. */
  function RemoveAt<T>(s: seq<T>, k: nat): (r: seq<T>)
    requires k < |s|
    ensures multiset(s) == multiset(r) + multiset{s[k]}
  {
    assert s == s[..k] + [s[k]] + s[k + 1..];
    s[..k] + s[k + 1..]
  }

  lemma MapRemoveAt<A, B>(s: seq<A>, k: nat, f: A -> B)
    requires k < |s|
    ensures multiset(Map(s, f)) == multiset(Map(RemoveAt(s, k), f)) + multiset{f(s[k])}
  {
    var m := Map(s, f);
    var r := RemoveAt(s, k);
    assert r == s[..k] + s[k + 1..];
    MapAppend(s[..k], s[k + 1..], f);
    MapPrefix(s, k, f);
    MapSuffix(s, k + 1, f);
    assert Map(r, f) == m[..k] + m[k + 1..];
    assert RemoveAt(m, k) == m[..k] + m[k + 1..];
  }

  /** Mapping a prefix gives the prefix of the mapping. */
  lemma MapPrefix<A, B>(s: seq<A>, k: nat, f: A -> B)
    requires k <= |s|
    ensures Map(s[..k], f) == Map(s, f)[..k]
  {
  }

  /** Mapping a suffix gives the suffix of the mapping. */
  lemma MapSuffix<A, B>(s: seq<A>, k: nat, f: A -> B)
    requires k <= |s|
    ensures Map(s[k..], f) == Map(s, f)[k..]
  {
  }

  /** Mapping preserves "taken from": a sub-multiset maps to a sub-multiset. */
  lemma {:induction false} MapSubMultiset<A, B>(rs: seq<A>, ss: seq<A>, f: A -> B)
    requires multiset(rs) <= multiset(ss)
    ensures multiset(Map(rs, f)) <= multiset(Map(ss, f))
    decreases |rs|
  {
    if rs != [] {
      var x := rs[0];
      assert x in multiset(ss);
      var k :| 0 <= k < |ss| && ss[k] == x;
      var rest := RemoveAt(ss, k);
      assert rs == [x] + rs[1..];
      assert multiset(rs) == multiset(rs[1..]) + multiset{x};
      forall y ensures multiset(rs[1..])[y] <= multiset(rest)[y] {
        assert multiset(rs)[y] <= multiset(ss)[y];
      }
      assert multiset(rs[1..]) <= multiset(rest);
      MapSubMultiset(rs[1..], rest, f);
      MapRemoveAt(ss, k, f);
      assert Map(rs, f) == [f(x)] + Map(rs[1..], f);
    }
  }
}
