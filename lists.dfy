/** Sequence operations shared by the models of the client and the server:
    JavaScript's `filter`, `includes`, `slice(0, n)` and the insertion order
    of a `Set`, together with the facts the other modules rely on.
    Every recursive definition here peels off the LAST element, so that a
    loop which has processed `s[..i]` can be related to it step by step. */
module Lists {

  /** Number of occurrences of `x` in `s`. */
  function Count<T(==)>(s: seq<T>, x: T): (n: nat)
    ensures n <= |s|
    ensures n > 0 <==> x in s
  {
    if s == [] then 0
    else
      assert s == s[..|s| - 1] + [s[|s| - 1]];
      Count(s[..|s| - 1], x) + (if s[|s| - 1] == x then 1 else 0)
  }

  /** JavaScript's `s.filter(p)`: the elements satisfying `p`, in order. */
  function Filter<T>(s: seq<T>, p: T -> bool): (r: seq<T>)
    ensures |r| <= |s|
    ensures forall i :: 0 <= i < |r| ==> p(r[i])
  {
    if s == [] then []
    else Filter(s[..|s| - 1], p) + (if p(s[|s| - 1]) then [s[|s| - 1]] else [])
  }

  /** `s.filter(y => y !== x)`. */
  function RemoveAll<T(==)>(s: seq<T>, x: T): (r: seq<T>)
  {
    Filter(s, NotEqual(x))
  }

  /** The predicate `y => y !== x`. */
  function NotEqual<T(==)>(x: T): T -> bool
  {
    y => y != x
  }

  /** `s.slice(0, n)`. */
  function Take<T>(s: seq<T>, n: nat): (r: seq<T>)
    ensures |r| <= n && |r| <= |s|
    ensures |s| <= n ==> r == s
    ensures forall i :: 0 <= i < |r| ==> r[i] == s[i]
  {
    if |s| <= n then s else s[..n]
  }

  predicate Distinct<T(==)>(s: seq<T>)
  {
    forall i, j :: 0 <= i < j < |s| ==> s[i] != s[j]
  }

  /** The distinct elements of `s` in order of first occurrence: what
      `Array.from(set)` yields after every element of `s` was added, in turn,
      to an initially empty JavaScript `Set`. */
  function FirstOccurrences<T(==)>(s: seq<T>): (r: seq<T>)
  {
    if s == [] then []
    else
      var p := s[..|s| - 1];
      if s[|s| - 1] in p then FirstOccurrences(p) else FirstOccurrences(p) + [s[|s| - 1]]
  }

  /** Index of the first occurrence of `x` in `s`. */
  function FirstIndex<T(==)>(s: seq<T>, x: T): (k: nat)
    requires x in s
    ensures k < |s| && s[k] == x && x !in s[..k]
  {
    var p := s[..|s| - 1];
    if x in p then
      var k := FirstIndex(p, x);
      assert s[..k] == p[..k];
      k
    else |s| - 1
  }

  /** An index holding `x` with no `x` before it is the first index. */
  lemma {:induction false} FirstIndexAt<T>(s: seq<T>, x: T, k: nat)
    requires k < |s| && s[k] == x && x !in s[..k]
    ensures FirstIndex(s, x) == k
  {
    var p := s[..|s| - 1];
    if k < |s| - 1 {
      assert p[k] == x && p[..k] == s[..k];
      FirstIndexAt(p, x, k);
    } else {
      assert p == s[..k];
    }
  }

  /** `a` is `b` with some elements deleted, the rest kept in order. */
  predicate IsSubsequence<T(==)>(a: seq<T>, b: seq<T>)
    decreases |b|
  {
    if a == [] then true
    else if b == [] then false
    else if a[|a| - 1] == b[|b| - 1] then IsSubsequence(a[..|a| - 1], b[..|b| - 1])
    else IsSubsequence(a, b[..|b| - 1])
  }

  /** `s.map(f)`. */
  function Map<A, B>(s: seq<A>, f: A -> B): (r: seq<B>)
    ensures |r| == |s|
  {
    if s == [] then [] else Map(s[..|s| - 1], f) + [f(s[|s| - 1])]
  }

  /** Each element of the mapped sequence is `f` of the element in the
      same place. */
  lemma {:induction false} MapIndex<A, B>(s: seq<A>, f: A -> B)
    ensures forall i :: 0 <= i < |s| ==> Map(s, f)[i] == f(s[i])
  {
    if s != [] {
      MapIndex(s[..|s| - 1], f);
    }
  }

  /** The sequence `ss[0] + ss[1] + ...`, JavaScript's `ss.flat()`. */
  function Flatten<T>(ss: seq<seq<T>>): (r: seq<T>)
  {
    if ss == [] then [] else Flatten(ss[..|ss| - 1]) + ss[|ss| - 1]
  }

  // ---------------------------------------------------------------------
  // Count

  lemma CountAppend<T>(s: seq<T>, x: T, y: T)
    ensures Count(s + [y], x) == Count(s, x) + (if y == x then 1 else 0)
  {
    assert (s + [y])[..|s|] == s;
  }

  lemma {:induction false} CountConcat<T>(a: seq<T>, b: seq<T>, x: T)
    ensures Count(a + b, x) == Count(a, x) + Count(b, x)
    decreases |b|
  {
    if b == [] {
      assert a + b == a;
    } else {
      var b' := b[..|b| - 1];
      assert a + b == (a + b') + [b[|b| - 1]];
      assert b == b' + [b[|b| - 1]];
      CountAppend(a + b', x, b[|b| - 1]);
      CountAppend(b', x, b[|b| - 1]);
      CountConcat(a, b', x);
    }
  }

  // ---------------------------------------------------------------------
  // Filter

  lemma FilterAppend<T>(s: seq<T>, p: T -> bool, y: T)
    ensures Filter(s + [y], p) == Filter(s, p) + (if p(y) then [y] else [])
  {
    assert (s + [y])[..|s|] == s;
  }

  lemma {:induction false} FilterConcat<T>(a: seq<T>, b: seq<T>, p: T -> bool)
    ensures Filter(a + b, p) == Filter(a, p) + Filter(b, p)
    decreases |b|
  {
    if b == [] {
      assert a + b == a;
    } else {
      var b' := b[..|b| - 1];
      var y := b[|b| - 1];
      assert a + b == (a + b') + [y];
      assert b == b' + [y];
      FilterAppend(a + b', p, y);
      FilterAppend(b', p, y);
      FilterConcat(a, b', p);
    }
  }

  /** An element is kept exactly when it occurs in `s` and satisfies `p`. */
  lemma {:induction false} FilterMembership<T>(s: seq<T>, p: T -> bool, x: T)
    ensures x in Filter(s, p) <==> x in s && p(x)
  {
    if s != [] {
      var s' := s[..|s| - 1];
      assert s == s' + [s[|s| - 1]];
      FilterMembership(s', p, x);
    }
  }

  /** Filtering keeps the surviving elements in their original order. */
  lemma {:induction false} FilterIsSubsequence<T>(s: seq<T>, p: T -> bool)
    ensures IsSubsequence(Filter(s, p), s)
  {
    if s != [] {
      var s' := s[..|s| - 1];
      FilterIsSubsequence(s', p);
      if p(s[|s| - 1]) {
        assert Filter(s, p)[..|Filter(s, p)| - 1] == Filter(s', p);
      } else {
        assert Filter(s, p) == Filter(s', p);
        SubsequenceExtend(Filter(s', p), s', s[|s| - 1]);
        assert s' + [s[|s| - 1]] == s;
      }
    }
  }

  /** Filtering with a predicate that holds everywhere is the identity. */
  lemma {:induction false} FilterAllKept<T>(s: seq<T>, p: T -> bool)
    requires forall i :: 0 <= i < |s| ==> p(s[i])
    ensures Filter(s, p) == s
  {
    if s != [] {
      var s' := s[..|s| - 1];
      FilterAllKept(s', p);
      assert s == s' + [s[|s| - 1]];
    }
  }

  /** Filtering with a predicate that nowhere holds gives the empty list. */
  lemma {:induction false} FilterNoneKept<T>(s: seq<T>, p: T -> bool)
    requires forall i :: 0 <= i < |s| ==> !p(s[i])
    ensures Filter(s, p) == []
  {
    if s != [] {
      FilterNoneKept(s[..|s| - 1], p);
    }
  }

  /** Filtering twice with the same predicate changes nothing the second time. */
  lemma FilterIdempotent<T>(s: seq<T>, p: T -> bool)
    ensures Filter(Filter(s, p), p) == Filter(s, p)
  {
    FilterAllKept(Filter(s, p), p);
  }

  // ---------------------------------------------------------------------
  // RemoveAll

  /** `RemoveAll` drops `x` and keeps every other element's membership. */
  lemma RemoveAllMembership<T>(s: seq<T>, x: T, y: T)
    ensures y in RemoveAll(s, x) <==> y in s && y != x
  {
    FilterMembership(s, NotEqual(x), y);
  }

  /** Removing an absent element leaves the list exactly as it was. */
  lemma RemoveAllAbsent<T>(s: seq<T>, x: T)
    requires x !in s
    ensures RemoveAll(s, x) == s
  {
    FilterAllKept(s, NotEqual(x));
  }

  /** Exactly the occurrences of `x` are removed. */
  lemma {:induction false} RemoveAllLength<T>(s: seq<T>, x: T)
    ensures |RemoveAll(s, x)| == |s| - Count(s, x)
  {
    if s != [] {
      var s' := s[..|s| - 1];
      assert s == s' + [s[|s| - 1]];
      RemoveAllLength(s', x);
    }
  }

  /** The survivors keep their relative order. */
  lemma RemoveAllIsSubsequence<T>(s: seq<T>, x: T)
    ensures IsSubsequence(RemoveAll(s, x), s)
  {
    FilterIsSubsequence(s, NotEqual(x));
  }

  /** `RemoveAll(s + [x], x)` undoes the append of an absent element. */
  lemma RemoveAllAfterAppend<T>(s: seq<T>, x: T)
    requires x !in s
    ensures RemoveAll(s + [x], x) == s
  {
    FilterAppend(s, NotEqual(x), x);
    RemoveAllAbsent(s, x);
  }

  /** Removing `x` commutes with filtering out any other value. */
  lemma {:induction false} RemoveAllOther<T>(s: seq<T>, x: T, y: T)
    ensures Count(RemoveAll(s, x), y) == (if y == x then 0 else Count(s, y))
  {
    if s != [] {
      var s' := s[..|s| - 1];
      var z := s[|s| - 1];
      assert s == s' + [z];
      RemoveAllOther(s', x, y);
      FilterAppend(s', NotEqual(x), z);
      CountAppend(s', y, z);
      if z != x {
        assert RemoveAll(s, x) == RemoveAll(s', x) + [z];
        CountAppend(RemoveAll(s', x), y, z);
      } else {
        assert RemoveAll(s, x) == RemoveAll(s', x);
      }
    }
  }

  // ---------------------------------------------------------------------
  // Subsequences

  lemma SubsequenceExtend<T>(a: seq<T>, b: seq<T>, y: T)
    requires IsSubsequence(a, b)
    ensures IsSubsequence(a, b + [y])
    decreases |b|, 1
  {
    var b' := b + [y];
    assert b'[..|b'| - 1] == b;
    if a != [] && a[|a| - 1] == y {
      SubsequenceDropLast(a, b);
    }
  }

  /** A subsequence stays one after its own last element is dropped. */
  lemma {:induction false} SubsequenceDropLast<T>(a: seq<T>, b: seq<T>)
    requires a != [] && IsSubsequence(a, b)
    ensures IsSubsequence(a[..|a| - 1], b)
    decreases |b|, 0
  {
    var a' := a[..|a| - 1];
    var b' := b[..|b| - 1];
    assert b' + [b[|b| - 1]] == b;
    if a[|a| - 1] == b[|b| - 1] {
      SubsequenceExtend(a', b', b[|b| - 1]);
    } else {
      SubsequenceDropLast(a, b');
      SubsequenceExtend(a', b', b[|b| - 1]);
    }
  }

  /** Every element of a subsequence is an element of the whole. */
  lemma {:induction false} SubsequenceMembers<T>(a: seq<T>, b: seq<T>, x: T)
    requires IsSubsequence(a, b) && x in a
    ensures x in b
    decreases |b|
  {
    if b == [] {
      assert false;
    } else if a[|a| - 1] == b[|b| - 1] {
      if x != a[|a| - 1] {
        assert a == a[..|a| - 1] + [a[|a| - 1]];
        SubsequenceMembers(a[..|a| - 1], b[..|b| - 1], x);
      }
    } else {
      SubsequenceMembers(a, b[..|b| - 1], x);
    }
    assert b == b[..|b| - 1] + [b[|b| - 1]];
  }

  /** A prefix is a subsequence. */
  lemma {:induction false} PrefixIsSubsequence<T>(s: seq<T>, n: nat)
    requires n <= |s|
    ensures IsSubsequence(s[..n], s)
    decreases |s|
  {
    if n < |s| {
      PrefixIsSubsequence(s[..|s| - 1], n);
      assert s[..|s| - 1][..n] == s[..n];
      SubsequenceExtend(s[..n], s[..|s| - 1], s[|s| - 1]);
      assert s[..|s| - 1] + [s[|s| - 1]] == s;
    } else {
      assert s[..n] == s;
      SubsequenceRefl(s);
    }
  }

  /** Subsequences of two parts make a subsequence of the two parts together. */
  lemma {:induction false} SubsequenceConcat<T>(a1: seq<T>, b1: seq<T>, a2: seq<T>, b2: seq<T>)
    requires IsSubsequence(a1, b1) && IsSubsequence(a2, b2)
    ensures IsSubsequence(a1 + a2, b1 + b2)
    decreases |b2|
  {
    if b2 == [] {
      assert a2 == [];
      assert a1 + a2 == a1 && b1 + b2 == b1;
    } else {
      var b2' := b2[..|b2| - 1];
      var y := b2[|b2| - 1];
      assert (b1 + b2)[..|b1 + b2| - 1] == b1 + b2';
      if a2 != [] && a2[|a2| - 1] == y {
        var a2' := a2[..|a2| - 1];
        SubsequenceConcat(a1, b1, a2', b2');
        assert (a1 + a2)[..|a1 + a2| - 1] == a1 + a2';
      } else {
        SubsequenceConcat(a1, b1, a2, b2');
        SubsequenceExtend(a1 + a2, b1 + b2', y);
        assert b1 + b2' + [y] == b1 + b2;
      }
    }
  }

  /** A prefix of a subsequence is a subsequence. */
  lemma {:induction false} SubsequenceTake<T>(a: seq<T>, b: seq<T>, n: nat)
    requires IsSubsequence(a, b)
    ensures IsSubsequence(Take(a, n), b)
    decreases |a|
  {
    if n < |a| {
      SubsequenceDropLast(a, b);
      SubsequenceTake(a[..|a| - 1], b, n);
      assert Take(a[..|a| - 1], n) == Take(a, n);
    }
  }

  lemma {:induction false} SubsequenceRefl<T>(s: seq<T>)
    ensures IsSubsequence(s, s)
  {
    if s != [] {
      SubsequenceRefl(s[..|s| - 1]);
    }
  }

  // ---------------------------------------------------------------------
  // FirstOccurrences

  lemma FirstOccurrencesAppend<T>(s: seq<T>, x: T)
    ensures FirstOccurrences(s + [x]) ==
      if x in s then FirstOccurrences(s) else FirstOccurrences(s) + [x]
  {
    assert (s + [x])[..|s|] == s;
  }

  /** The deduplicated list holds exactly the elements of the original. */
  lemma {:induction false} FirstOccurrencesMembership<T>(s: seq<T>, x: T)
    ensures x in FirstOccurrences(s) <==> x in s
  {
    if s != [] {
      var p := s[..|s| - 1];
      assert s == p + [s[|s| - 1]];
      FirstOccurrencesMembership(p, x);
    }
  }

  /** No element is listed twice. */
  lemma {:induction false} FirstOccurrencesDistinct<T>(s: seq<T>)
    ensures Distinct(FirstOccurrences(s))
  {
    if s != [] {
      var p := s[..|s| - 1];
      FirstOccurrencesDistinct(p);
      FirstOccurrencesMembership(p, s[|s| - 1]);
    }
  }

  /** The elements are listed in order of their first occurrence in `s`. */
  lemma {:induction false} FirstOccurrencesOrder<T>(s: seq<T>)
    ensures forall x :: x in FirstOccurrences(s) ==> x in s
    ensures forall i, j :: 0 <= i < j < |FirstOccurrences(s)| ==>
      FirstIndex(s, FirstOccurrences(s)[i]) < FirstIndex(s, FirstOccurrences(s)[j])
  {
    forall x | x in FirstOccurrences(s) ensures x in s {
      FirstOccurrencesMembership(s, x);
    }
    if s != [] {
      var p := s[..|s| - 1];
      var y := s[|s| - 1];
      var r := FirstOccurrences(s);
      var q := FirstOccurrences(p);
      FirstOccurrencesOrder(p);
      forall x | x in p ensures FirstIndex(s, x) == FirstIndex(p, x) { }
      forall i, j | 0 <= i < j < |r|
        ensures FirstIndex(s, r[i]) < FirstIndex(s, r[j])
      {
        FirstOccurrencesMembership(p, r[i]);
        if j < |q| {
          FirstOccurrencesMembership(p, r[j]);
        } else {
          assert r[j] == y && y !in p;
          assert FirstIndex(s, r[i]) < |p|;
        }
      }
    }
  }

  /** Deduplicating an already distinct list changes nothing. */
  lemma {:induction false} FirstOccurrencesOfDistinct<T>(s: seq<T>)
    requires Distinct(s)
    ensures FirstOccurrences(s) == s
  {
    if s != [] {
      var p := s[..|s| - 1];
      assert Distinct(p);
      FirstOccurrencesOfDistinct(p);
      assert s == p + [s[|s| - 1]];
    }
  }

  /** The first occurrences keep the original order. */
  lemma {:induction false} FirstOccurrencesIsSubsequence<T>(s: seq<T>)
    ensures IsSubsequence(FirstOccurrences(s), s)
  {
    if s != [] {
      var p := s[..|s| - 1];
      FirstOccurrencesIsSubsequence(p);
      if s[|s| - 1] in p {
        SubsequenceExtend(FirstOccurrences(p), p, s[|s| - 1]);
        assert p + [s[|s| - 1]] == s;
      } else {
        assert FirstOccurrences(s)[..|FirstOccurrences(s)| - 1] == FirstOccurrences(p);
      }
    }
  }

  // ---------------------------------------------------------------------
  // Take and Flatten

  /** A prefix taken from a distinct list is distinct. */
  lemma TakeDistinct<T>(s: seq<T>, n: nat)
    requires Distinct(s)
    ensures Distinct(Take(s, n))
  {
  }

  /** Mapping and then truncating is truncating and then mapping. */
  lemma TakeMap<A, B>(s: seq<A>, f: A -> B, n: nat)
    ensures Take(Map(s, f), n) == Map(Take(s, n), f)
  {
    var l := Take(Map(s, f), n);
    var r := Map(Take(s, n), f);
    MapIndex(s, f);
    MapIndex(Take(s, n), f);
    assert |l| == |r|;
    forall i | 0 <= i < |l| ensures l[i] == r[i] {
      assert l[i] == Map(s, f)[i];
    }
  }

  lemma FlattenAppend<T>(ss: seq<seq<T>>, s: seq<T>)
    ensures Flatten(ss + [s]) == Flatten(ss) + s
  {
    assert (ss + [s])[..|ss|] == ss;
  }

  /** An element of the flattened list comes from one of the parts. */
  lemma {:induction false} FlattenMembership<T>(ss: seq<seq<T>>, x: T)
    requires x in Flatten(ss)
    ensures exists k :: 0 <= k < |ss| && x in ss[k]
  {
    var p := ss[..|ss| - 1];
    if x in Flatten(p) {
      FlattenMembership(p, x);
      var k :| 0 <= k < |p| && x in p[k];
      assert ss[k] == p[k];
    } else {
      assert x in ss[|ss| - 1];
    }
  }

  /** The flattened list is as long as the parts together. */
  lemma {:induction false} FlattenLength<T>(ss: seq<seq<T>>, lengths: seq<nat>)
    requires |lengths| == |ss|
    requires forall k :: 0 <= k < |ss| ==> |ss[k]| == lengths[k]
    ensures |Flatten(ss)| == Sum(lengths)
  {
    if ss != [] {
      FlattenLength(ss[..|ss| - 1], lengths[..|lengths| - 1]);
    }
  }

  function Sum(xs: seq<nat>): nat
  {
    if xs == [] then 0 else Sum(xs[..|xs| - 1]) + xs[|xs| - 1]
  }}
