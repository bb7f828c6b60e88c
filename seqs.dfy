/** The list idioms the tool's loops share: keeping the elements that pass a
    test, and sorting elements into groups by a key.  Both are written from
    the end of the list, as a loop that appends sees them.
 */
module Seqs {

  /** `[x for x in xs if p(x)]` */
  function Filter<T>(xs: seq<T>, p: T -> bool): (r: seq<T>)
    ensures |r| <= |xs|
    decreases |xs|
  {
    if xs == [] then []
    else Filter(xs[..|xs| - 1], p) + (if p(xs[|xs| - 1]) then [xs[|xs| - 1]] else [])
  }

  /** `a` is `b` with some elements left out, the rest in their order. */
  predicate IsSubseq<T(==)>(a: seq<T>, b: seq<T>)
    decreases |b|
  {
    if a == [] then true
    else if b == [] then false
    else if a[|a| - 1] == b[|b| - 1] then IsSubseq(a[..|a| - 1], b[..|b| - 1])
    else IsSubseq(a, b[..|b| - 1])
  }

  /** An element is kept iff it is in the list and passes the test. */
  lemma {:induction false} FilterMember<T>(xs: seq<T>, p: T -> bool, x: T)
    ensures x in Filter(xs, p) <==> x in xs && p(x)
    decreases |xs|
  {
    if xs != [] {
      var init := xs[..|xs| - 1];
      FilterMember(init, p, x);
      assert xs == init + [xs[|xs| - 1]];
    }
  }

  /** Every kept element passes the test. */
  lemma {:induction false} FilterAll<T>(xs: seq<T>, p: T -> bool)
    ensures forall i :: 0 <= i < |Filter(xs, p)| ==> p(Filter(xs, p)[i])
    decreases |xs|
  {
    if xs != [] {
      FilterAll(xs[..|xs| - 1], p);
    }
  }

  /** The kept elements keep their order. */
  lemma {:induction false} FilterIsSubseq<T>(xs: seq<T>, p: T -> bool)
    ensures IsSubseq(Filter(xs, p), xs)
    decreases |xs|
  {
    if xs != [] {
      var init := xs[..|xs| - 1];
      FilterIsSubseq(init, p);
      var last := xs[|xs| - 1];
      if p(last) {
        assert Filter(xs, p)[..|Filter(xs, p)| - 1] == Filter(init, p);
      } else {
        assert Filter(xs, p) == Filter(init, p);
        SubseqSnoc(Filter(init, p), init, last);
      }
    }
  }

  /** Adding an element at the end of the longer list keeps a subsequence. */
  lemma {:induction false} SubseqSnoc<T>(a: seq<T>, b: seq<T>, x: T)
    requires IsSubseq(a, b)
    ensures IsSubseq(a, b + [x])
    decreases |b|, 1
  {
    if a != [] {
      assert (b + [x])[..|b|] == b;
      if a[|a| - 1] == x {
        SubseqDropLast(a, b);
      }
    }
  }

  /** Leaving out the last element of a subsequence keeps it a subsequence. */
  lemma {:induction false} SubseqDropLast<T>(a: seq<T>, b: seq<T>)
    requires a != [] && IsSubseq(a, b)
    ensures IsSubseq(a[..|a| - 1], b)
    decreases |b|, 0
  {
    var init := a[..|a| - 1];
    if init != [] {
      if a[|a| - 1] == b[|b| - 1] {
        SubseqSnoc(init, b[..|b| - 1], b[|b| - 1]);
        assert b[..|b| - 1] + [b[|b| - 1]] == b;
      } else {
        SubseqDropLast(a, b[..|b| - 1]);
        SubseqSnoc(init, b[..|b| - 1], b[|b| - 1]);
        assert b[..|b| - 1] + [b[|b| - 1]] == b;
      }
    }
  }

  /** With a test every element passes, nothing is dropped. */
  lemma {:induction false} FilterKeepsAll<T>(xs: seq<T>, p: T -> bool)
    requires forall i :: 0 <= i < |xs| ==> p(xs[i])
    ensures Filter(xs, p) == xs
    decreases |xs|
  {
    if xs != [] {
      FilterKeepsAll(xs[..|xs| - 1], p);
    }
  }

  /** Keeping elements from a longer list: the part before is kept as before. */
  lemma {:induction false} FilterAppend<T>(xs: seq<T>, ys: seq<T>, p: T -> bool)
    ensures Filter(xs + ys, p) == Filter(xs, p) + Filter(ys, p)
    decreases |ys|
  {
    if ys == [] {
      assert xs + ys == xs;
    } else {
      assert (xs + ys)[..|xs + ys| - 1] == xs + ys[..|ys| - 1];
      FilterAppend(xs, ys[..|ys| - 1], p);
    }
  }

  /** `groups.setdefault(key(x), []).append(x)` for every `x`. */
  function GroupBy<T, K>(xs: seq<T>, key: T -> K): (m: map<K, seq<T>>)
    decreases |xs|
  {
    if xs == [] then map[]
    else
      var m := GroupBy(xs[..|xs| - 1], key);
      var k := key(xs[|xs| - 1]);
      m[k := (if k in m then m[k] else []) + [xs[|xs| - 1]]]
  }

  /** A group exists exactly for the keys some element has, and it holds the
      elements with that key in their original order. */
  lemma {:induction false} GroupByGroups<T, K>(xs: seq<T>, key: T -> K)
    ensures forall k :: k in GroupBy(xs, key) <==> exists i :: 0 <= i < |xs| && key(xs[i]) == k
    ensures forall k :: k in GroupBy(xs, key) ==> GroupBy(xs, key)[k] == Filter(xs, x => key(x) == k)
    decreases |xs|
  {
    if xs != [] {
      var init := xs[..|xs| - 1];
      GroupByGroups(init, key);
      var m := GroupBy(xs, key);
      var last := xs[|xs| - 1];
      forall k ensures k in m <==> exists i :: 0 <= i < |xs| && key(xs[i]) == k {
        if k in m {
          if k == key(last) {
            assert key(xs[|xs| - 1]) == k;
          } else {
            assert k in GroupBy(init, key);
            var i :| 0 <= i < |init| && key(init[i]) == k;
            assert key(xs[i]) == k;
          }
        }
        if exists i :: 0 <= i < |xs| && key(xs[i]) == k {
          var i :| 0 <= i < |xs| && key(xs[i]) == k;
          if i < |init| {
            assert key(init[i]) == k;
            assert k in GroupBy(init, key);
          } else {
            assert k == key(last);
          }
        }
      }
      forall k | k in m ensures m[k] == Filter(xs, x => key(x) == k) {
        var p := x => key(x) == k;
        if k !in GroupBy(init, key) {
          forall i | 0 <= i < |init| ensures !p(init[i]) {
            GroupByHasKey(init, key, i);
          }
          FilterNone(init, p);
        }
      }
    }
  }

  /** Every element's key has a group. */
  lemma {:induction false} GroupByHasKey<T, K>(xs: seq<T>, key: T -> K, i: nat)
    requires i < |xs|
    ensures key(xs[i]) in GroupBy(xs, key)
    decreases |xs|
  {
    if i < |xs| - 1 {
      GroupByHasKey(xs[..|xs| - 1], key, i);
    }
  }

  /** Nothing is kept when no element passes. */
  lemma {:induction false} FilterNone<T>(xs: seq<T>, p: T -> bool)
    requires forall i :: 0 <= i < |xs| ==> !p(xs[i])
    ensures Filter(xs, p) == []
    decreases |xs|
  {
    if xs != [] {
      FilterNone(xs[..|xs| - 1], p);
    }
  }

  /** The keys in the order their first element appears: the order in which
      the grouping loop creates them. */
  function FirstKeys<T, K(==)>(xs: seq<T>, key: T -> K): seq<K>
    decreases |xs|
  {
    if xs == [] then []
    else
      var ks := FirstKeys(xs[..|xs| - 1], key);
      var k := key(xs[|xs| - 1]);
      if k in ks then ks else ks + [k]
  }

  /** The listed keys are exactly the keys of the groups. */
  lemma {:induction false} FirstKeysGroups<T, K>(xs: seq<T>, key: T -> K, k: K)
    ensures k in FirstKeys(xs, key) <==> k in GroupBy(xs, key)
    decreases |xs|
  {
    if xs != [] {
      FirstKeysGroups(xs[..|xs| - 1], key, k);
    }
  }

  /** No element is listed twice. */
  ghost predicate Distinct<K>(ks: seq<K>) {
    forall i, j :: 0 <= i < j < |ks| ==> ks[i] != ks[j]
  }

  /** Each key is listed once. */
  lemma {:induction false} FirstKeysDistinct<T, K>(xs: seq<T>, key: T -> K)
    ensures Distinct(FirstKeys(xs, key))
    decreases |xs|
  {
    if xs != [] {
      FirstKeysDistinct(xs[..|xs| - 1], key);
      var ks := FirstKeys(xs[..|xs| - 1], key);
      var k := key(xs[|xs| - 1]);
      if k !in ks {
        assert forall i :: 0 <= i < |ks| ==> ks[i] != k;
      }
    }
  }

  /** The total size of the groups listed in `ks`. */
  function SumSizes<T, K>(m: map<K, seq<T>>, ks: seq<K>): nat
    decreases |ks|
  {
    if ks == [] then 0
    else SumSizes(m, ks[..|ks| - 1]) + (if ks[|ks| - 1] in m then |m[ks[|ks| - 1]]| else 0)
  }

  /** Changing a group that is not listed leaves the total alone. */
  lemma {:induction false} SumSizesOther<T, K>(m: map<K, seq<T>>, ks: seq<K>, k: K, v: seq<T>)
    requires k !in ks
    ensures SumSizes(m[k := v], ks) == SumSizes(m, ks)
    decreases |ks|
  {
    if ks != [] {
      SumSizesOther(m, ks[..|ks| - 1], k, v);
    }
  }

  /** Changing a group listed once changes the total by the change in its size. */
  lemma {:induction false} SumSizesBump<T, K>(m: map<K, seq<T>>, ks: seq<K>, k: K, v: seq<T>)
    requires k in m
    requires Distinct(ks)
    requires k in ks
    ensures SumSizes(m[k := v], ks) == SumSizes(m, ks) - |m[k]| + |v|
    decreases |ks|
  {
    var init := ks[..|ks| - 1];
    if ks[|ks| - 1] == k {
      assert k !in init;
      SumSizesOther(m, init, k, v);
    } else {
      assert k in init;
      SumSizesBump(m, init, k, v);
    }
  }

  /** Every element lands in exactly one group: the group sizes add up to
      the number of elements. */
  lemma {:induction false} GroupSizesSum<T, K>(xs: seq<T>, key: T -> K)
    ensures SumSizes(GroupBy(xs, key), FirstKeys(xs, key)) == |xs|
    decreases |xs|
  {
    if xs != [] {
      var init := xs[..|xs| - 1];
      GroupSizesSum(init, key);
      FirstKeysDistinct(init, key);
      var m := GroupBy(init, key);
      var ks := FirstKeys(init, key);
      var k := key(xs[|xs| - 1]);
      FirstKeysGroups(init, key, k);
      if k in ks {
        assert k in m;
        SumSizesBump(m, ks, k, m[k] + [xs[|xs| - 1]]);
      } else {
        assert k !in m;
        assert [] + [xs[|xs| - 1]] == [xs[|xs| - 1]];
        SumSizesOther(m, ks, k, [xs[|xs| - 1]]);
        assert (ks + [k])[..|ks|] == ks;
      }
    }
  }
}
