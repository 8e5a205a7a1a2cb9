/** Sequence vocabulary shared by the whole model: multiset bookkeeping, sums, selection and
    first-appearance keys (a dict filled with `setdefault`), flattening into runs, and
    Python's stable `sorted`.

    Recursive definitions take the last element off, so that prefixes, which are what loops
    have processed, are what they recurse on. */
module Sequences {
  datatype Option<+T> = None | Some(value: T)

  function MapSeq<A, B>(f: A -> B, s: seq<A>): (r: seq<B>)
    ensures |r| == |s|
    ensures forall i :: 0 <= i < |s| ==> r[i] == f(s[i])
  {
    seq(|s|, i requires 0 <= i < |s| => f(s[i]))
  }

  ghost predicate NoDuplicates<T>(s: seq<T>) {
    forall i, j :: 0 <= i < j < |s| ==> s[i] != s[j]
  }

  lemma {:induction false} NoDuplicatesMultiplicity<T(!new)>(s: seq<T>, x: T)
    requires NoDuplicates(s)
    ensures multiset(s)[x] == if x in s then 1 else 0
  {
    if |s| > 0 {
      var init := s[..|s| - 1];
      assert s == init + [s[|s| - 1]];
      NoDuplicatesMultiplicity(init, x);
    }
  }

  /** Two duplicate-free sequences with the same elements hold them equally often. */
  lemma SameElements<T(!new)>(a: seq<T>, b: seq<T>)
    requires NoDuplicates(a) && NoDuplicates(b)
    requires forall x :: x in a <==> x in b
    ensures multiset(a) == multiset(b)
  {
    forall x ensures multiset(a)[x] == multiset(b)[x] {
      NoDuplicatesMultiplicity(a, x);
      NoDuplicatesMultiplicity(b, x);
    }
  }

  lemma MultisetMembership<T(!new)>(a: seq<T>, b: seq<T>)
    requires multiset(a) == multiset(b)
    ensures |a| == |b|
    ensures forall x :: x in a <==> x in b
  {
    assert |multiset(a)| == |multiset(b)|;
    forall x ensures x in a <==> x in b {
      assert x in a <==> x in multiset(a);
      assert x in b <==> x in multiset(b);
    }
  }

  lemma Repeated<T>(s: seq<T>, i: nat, j: nat)
    requires i < j < |s| && s[i] == s[j]
    ensures multiset(s)[s[i]] >= 2
  {
    assert s == s[..j] + s[j..];
    assert s[i] in s[..j] && s[j] in s[j..];
  }

  lemma PermutationNoDuplicates<T(!new)>(a: seq<T>, b: seq<T>)
    requires multiset(a) == multiset(b) && NoDuplicates(a)
    ensures NoDuplicates(b)
  {
    forall i, j | 0 <= i < j < |b| ensures b[i] != b[j] {
      NoDuplicatesMultiplicity(a, b[i]);
      if b[i] == b[j] {
        Repeated(b, i, j);
      }
    }
  }

  lemma RemoveAt<T>(s: seq<T>, j: nat)
    requires j < |s|
    ensures multiset(s) == multiset(s[..j] + s[j + 1..]) + multiset{s[j]}
  {
    assert s == s[..j] + [s[j]] + s[j + 1..];
  }

  lemma Extract<T(!new)>(s: seq<T>, x: T) returns (rest: seq<T>)
    requires x in s
    ensures multiset(s) == multiset(rest) + multiset{x}
    ensures forall y :: y in s && y != x ==> y in rest
  {
    var i :| 0 <= i < |s| && s[i] == x;
    RemoveAt(s, i);
    rest := s[..i] + s[i + 1..];
    forall y | y in s && y != x ensures y in rest {
      var j :| 0 <= j < |s| && s[j] == y;
      assert y == if j < i then rest[j] else rest[j - 1];
    }
  }

  lemma MapConcat<A, B>(f: A -> B, a: seq<A>, b: seq<A>)
    ensures MapSeq(f, a + b) == MapSeq(f, a) + MapSeq(f, b)
  {
  }

  lemma CancelOne<T(!new)>(p: multiset<T>, q: multiset<T>, x: T)
    requires p + multiset{x} == q + multiset{x}
    ensures p == q
  {
    forall y ensures p[y] == q[y] {
      assert (p + multiset{x})[y] == (q + multiset{x})[y];
    }
  }

  lemma MapRemoveAt<A, B>(f: A -> B, s: seq<A>, j: nat)
    requires j < |s|
    ensures multiset(MapSeq(f, s)) == multiset(MapSeq(f, s[..j] + s[j + 1..])) + multiset{f(s[j])}
  {
    RemoveAt(MapSeq(f, s), j);
    assert MapSeq(f, s)[..j] + MapSeq(f, s)[j + 1..] == MapSeq(f, s[..j] + s[j + 1..]);
  }

  lemma {:induction false} MapPermutation<A(!new), B>(f: A -> B, a: seq<A>, b: seq<A>)
    requires multiset(a) == multiset(b)
    ensures multiset(MapSeq(f, a)) == multiset(MapSeq(f, b))
    decreases |a|
  {
    MultisetMembership(a, b);
    if |a| > 0 {
      var n := |a| - 1;
      assert a[n] in b;
      var j :| 0 <= j < |b| && b[j] == a[n];
      RemoveAt(a, n);
      RemoveAt(b, j);
      CancelOne(multiset(a[..n] + a[n + 1..]), multiset(b[..j] + b[j + 1..]), a[n]);
      MapPermutation(f, a[..n] + a[n + 1..], b[..j] + b[j + 1..]);
      MapRemoveAt(f, a, n);
      MapRemoveAt(f, b, j);
    }
  }

  // -------------------------------------------------------------- subsequences

  /** `a` can be read off `b` by leaving elements out. */
  predicate Subsequence<T(==)>(a: seq<T>, b: seq<T>) {
    || |a| == 0
    || (&& |b| > 0
        && if a[|a| - 1] == b[|b| - 1] then Subsequence(a[..|a| - 1], b[..|b| - 1]) else Subsequence(a, b[..|b| - 1]))
  }

  lemma {:induction false} SubsequenceInit<T>(a: seq<T>, b: seq<T>)
    requires Subsequence(a, b) && |a| > 0
    ensures Subsequence(a[..|a| - 1], b)
    decreases |b|, 0
  {
    var init, last := b[..|b| - 1], b[|b| - 1];
    if a[|a| - 1] != last {
      SubsequenceInit(a, init);
    }
    SubsequenceMore(a[..|a| - 1], init, last);
    assert init + [last] == b;
  }

  lemma {:induction false} SubsequenceMore<T>(a: seq<T>, b: seq<T>, x: T)
    requires Subsequence(a, b)
    ensures Subsequence(a, b + [x])
    decreases |b|, 1
  {
    assert (b + [x])[..|b|] == b;
    if |a| > 0 && a[|a| - 1] == x {
      SubsequenceInit(a, b);
    }
  }

  lemma {:induction false} SubsequenceConcat<T>(a: seq<T>, b: seq<T>, more: seq<T>)
    requires Subsequence(a, b)
    ensures Subsequence(a, b + more)
  {
    if |more| == 0 {
      assert b + more == b;
    } else {
      SubsequenceConcat(a, b, more[..|more| - 1]);
      SubsequenceMore(a, b + more[..|more| - 1], more[|more| - 1]);
      assert b + more[..|more| - 1] + [more[|more| - 1]] == b + more;
    }
  }

  lemma SubsequencePair<T>(a: seq<T>, b: seq<T>, x: T)
    requires Subsequence(a, b)
    ensures Subsequence(a + [x], b + [x])
  {
    assert (a + [x])[..|a|] == a && (b + [x])[..|b|] == b;
  }

  lemma {:induction false} SubsequenceMembers<T(!new)>(a: seq<T>, b: seq<T>)
    requires Subsequence(a, b)
    ensures forall x :: x in a ==> x in b
  {
    if |a| > 0 {
      assert a == a[..|a| - 1] + [a[|a| - 1]];
      if a[|a| - 1] == b[|b| - 1] {
        SubsequenceMembers(a[..|a| - 1], b[..|b| - 1]);
      } else {
        SubsequenceMembers(a, b[..|b| - 1]);
      }
    }
  }

  // ---------------------------------------------------------------------- sums

  function SumOf<T>(f: T -> nat, s: seq<T>): nat {
    if |s| == 0 then 0 else SumOf(f, s[..|s| - 1]) + f(s[|s| - 1])
  }

  lemma SumAppend<T>(f: T -> nat, s: seq<T>, x: T)
    ensures SumOf(f, s + [x]) == SumOf(f, s) + f(x)
  {
    assert (s + [x])[..|s|] == s;
  }

  lemma {:induction false} SumUpdate<T>(f: T -> nat, s: seq<T>, i: nat, x: T)
    requires i < |s|
    ensures SumOf(f, s[i := x]) == SumOf(f, s) - f(s[i]) + f(x)
  {
    var n := |s| - 1;
    if i < n {
      SumUpdate(f, s[..n], i, x);
      assert s[i := x][..n] == s[..n][i := x];
    } else {
      assert s[i := x][..n] == s[..n];
    }
  }

  lemma {:induction false} SumPositive<T>(f: T -> nat, s: seq<T>)
    ensures SumOf(f, s) > 0 <==> exists i :: 0 <= i < |s| && f(s[i]) > 0
  {
    if |s| > 0 {
      var init := s[..|s| - 1];
      SumPositive(f, init);
      if i :| 0 <= i < |init| && f(init[i]) > 0 {
        assert f(s[i]) > 0;
      }
      if i :| 0 <= i < |s| && f(s[i]) > 0 {
        assert i < |init| ==> f(init[i]) > 0;
      }
    }
  }

  // ---------------------------------------------------------------- selection

  /** The elements of `s` whose image under `f` is `k`, in order. */
  function Select<T, K(==)>(f: T -> K, s: seq<T>, k: K): seq<T> {
    if |s| == 0 then []
    else
      var rest := Select(f, s[..|s| - 1], k);
      if f(s[|s| - 1]) == k then rest + [s[|s| - 1]] else rest
  }

  /** The images of `s` under `f` in order of first appearance: the key order of a
      Python dict filled with `setdefault`. */
  function Keys<T, K(==)>(f: T -> K, s: seq<T>): seq<K> {
    if |s| == 0 then []
    else
      var last := s[|s| - 1];
      var rest := Keys(f, s[..|s| - 1]);
      if f(last) in rest then rest else rest + [f(last)]
  }

  lemma {:induction false} SelectMembers<T(!new), K(!new)>(f: T -> K, s: seq<T>, k: K)
    ensures forall x :: x in Select(f, s, k) <==> x in s && f(x) == k
  {
    if |s| > 0 {
      SelectMembers(f, s[..|s| - 1], k);
      assert s == s[..|s| - 1] + [s[|s| - 1]];
    }
  }

  lemma {:induction false} KeysContain<T(!new), K(!new)>(f: T -> K, s: seq<T>, x: T)
    requires x in s
    ensures f(x) in Keys(f, s)
  {
    var last := s[|s| - 1];
    if x != last {
      assert s == s[..|s| - 1] + [last];
      KeysContain(f, s[..|s| - 1], x);
    }
  }

  lemma {:induction false} KeysFrom<T(!new), K(!new)>(f: T -> K, s: seq<T>, k: K) returns (x: T)
    requires k in Keys(f, s)
    ensures x in s && f(x) == k
  {
    var last := s[|s| - 1];
    if f(last) == k {
      x := last;
    } else {
      x := KeysFrom(f, s[..|s| - 1], k);
    }
  }

  lemma {:induction false} KeysDistinct<T(!new), K(!new)>(f: T -> K, s: seq<T>)
    ensures NoDuplicates(Keys(f, s))
  {
    if |s| > 0 {
      KeysDistinct(f, s[..|s| - 1]);
    }
  }

  /** A dict filled with `d.setdefault(f(x), []).append(x)`: its key order and its lists. */
  method GroupBy<T(!new), K(==,!new)>(f: T -> K, s: seq<T>) returns (order: seq<K>, lists: map<K, seq<T>>)
    ensures order == Keys(f, s)
    ensures forall k :: k in lists <==> k in order
    ensures forall k :: k in lists ==> lists[k] == Select(f, s, k)
  {
    order, lists := [], map[];
    for i := 0 to |s|
      invariant order == Keys(f, s[..i])
      invariant forall k :: k in lists <==> k in order
      invariant forall k :: k in lists ==> lists[k] == Select(f, s[..i], k)
    {
      var k := f(s[i]);
      assert s[..i + 1][..i] == s[..i];
      if k !in lists {
        NewKey(f, s[..i], k);
        lists := lists[k := []];
        order := order + [k];
      }
      lists := lists[k := lists[k] + [s[i]]];
    }
    assert s[..|s|] == s;
  }

  lemma {:induction false} SelectConcat<T(!new), K(!new)>(f: T -> K, a: seq<T>, b: seq<T>, k: K)
    ensures Select(f, a + b, k) == Select(f, a, k) + Select(f, b, k)
  {
    if |b| == 0 {
      assert a + b == a;
    } else {
      var init := b[..|b| - 1];
      assert (a + b)[..|a + b| - 1] == a + init;
      SelectConcat(f, a, init, k);
    }
  }

  lemma SelectAppend<T(!new), K(!new)>(f: T -> K, s: seq<T>, x: T, k: K)
    ensures Select(f, s + [x], k) == Select(f, s, k) + if f(x) == k then [x] else []
  {
    assert (s + [x])[..|s|] == s;
  }

  lemma SelectHead<T(!new), K(!new)>(f: T -> K, x: T, rest: seq<T>)
    ensures |Select(f, [x] + rest, f(x))| > 0 && Select(f, [x] + rest, f(x))[0] == x
  {
    SelectConcat(f, [x], rest, f(x));
    assert Select(f, [x], f(x)) == [x];
  }

  lemma {:induction false} SelectAll<T(!new), K(!new)>(f: T -> K, s: seq<T>, k: K)
    requires forall x :: x in s ==> f(x) == k
    ensures Select(f, s, k) == s
  {
    if |s| > 0 {
      SelectAll(f, s[..|s| - 1], k);
      assert s == s[..|s| - 1] + [s[|s| - 1]];
    }
  }

  lemma {:induction false} SelectNone<T(!new), K(!new)>(f: T -> K, s: seq<T>, k: K)
    requires forall x :: x in s ==> f(x) != k
    ensures Select(f, s, k) == []
  {
    if |s| > 0 {
      SelectNone(f, s[..|s| - 1], k);
    }
  }

  lemma NewKey<T(!new), K(!new)>(f: T -> K, s: seq<T>, k: K)
    requires k !in Keys(f, s)
    ensures Select(f, s, k) == []
  {
    forall x | x in s ensures f(x) != k {
      KeysContain(f, s, x);
    }
    SelectNone(f, s, k);
  }

  lemma {:induction false} SelectMultiset<T(!new), K(!new)>(f: T -> K, s: seq<T>, k: K, x: T)
    ensures multiset(Select(f, s, k))[x] == if f(x) == k then multiset(s)[x] else 0
  {
    if |s| > 0 {
      SelectMultiset(f, s[..|s| - 1], k, x);
      assert s == s[..|s| - 1] + [s[|s| - 1]];
    }
  }

  lemma SelectPermutation<T(!new), K(!new)>(f: T -> K, a: seq<T>, b: seq<T>, k: K)
    requires multiset(a) == multiset(b)
    ensures multiset(Select(f, a, k)) == multiset(Select(f, b, k))
  {
    forall x ensures multiset(Select(f, a, k))[x] == multiset(Select(f, b, k))[x] {
      SelectMultiset(f, a, k, x);
      SelectMultiset(f, b, k, x);
    }
  }

  /** Element `i` sits in its selection at the number of selected elements before it. */
  lemma {:induction false} SelectAt<T(!new), K(!new)>(f: T -> K, s: seq<T>, i: nat)
    requires i < |s|
    ensures |Select(f, s[..i], f(s[i]))| < |Select(f, s, f(s[i]))|
    ensures Select(f, s, f(s[i]))[|Select(f, s[..i], f(s[i]))|] == s[i]
  {
    var k := f(s[i]);
    assert s == s[..i + 1] + s[i + 1..];
    assert s[..i + 1][..i] == s[..i];
    SelectConcat(f, s[..i + 1], s[i + 1..], k);
  }

  /** ... and every selected position is reached that way. */
  lemma {:induction false} SelectIndex<T(!new), K(!new)>(f: T -> K, s: seq<T>, k: K, o: nat) returns (i: nat)
    requires o < |Select(f, s, k)|
    ensures i < |s| && f(s[i]) == k && |Select(f, s[..i], k)| == o
    ensures s[i] == Select(f, s, k)[o]
  {
    var n := |s| - 1;
    if f(s[n]) == k && o == |Select(f, s[..n], k)| {
      i := n;
    } else {
      i := SelectIndex(f, s[..n], k, o);
      assert s[..n][..i] == s[..i];
    }
  }

  lemma SelectMonotone<T(!new), K(!new)>(f: T -> K, s: seq<T>, k: K, i: nat, j: nat)
    requires i < j <= |s| && f(s[i]) == k
    ensures |Select(f, s[..i], k)| < |Select(f, s[..j], k)|
  {
    assert s[..j][..i] == s[..i];
    SelectAt(f, s[..j], i);
  }

  lemma {:induction false} SelectNoDuplicates<T(!new), K(!new)>(f: T -> K, s: seq<T>, k: K)
    requires NoDuplicates(s)
    ensures NoDuplicates(Select(f, s, k))
  {
    if |s| > 0 {
      SelectNoDuplicates(f, s[..|s| - 1], k);
      SelectMembers(f, s[..|s| - 1], k);
    }
  }

  lemma {:induction false} KeysPrefix<T(!new), K(!new)>(f: T -> K, a: seq<T>, b: seq<T>)
    ensures Keys(f, a) <= Keys(f, a + b)
  {
    if |b| == 0 {
      assert a + b == a;
    } else {
      var init := b[..|b| - 1];
      assert (a + b)[..|a + b| - 1] == a + init;
      KeysPrefix(f, a, init);
    }
  }

  /** Appending a run of one new key appends that key. */
  lemma {:induction false} KeysAppendRun<T(!new), K(!new)>(f: T -> K, a: seq<T>, run: seq<T>, k: K)
    requires |run| > 0 && k !in Keys(f, a)
    requires forall x :: x in run ==> f(x) == k
    ensures Keys(f, a + run) == Keys(f, a) + [k]
  {
    var init := run[..|run| - 1];
    assert (a + run)[..|a + run| - 1] == a + init;
    if |init| == 0 {
      assert a + init == a;
    } else {
      KeysAppendRun(f, a, init, k);
    }
  }

  function IndexOf<K(==)>(ks: seq<K>, k: K): (i: nat)
    requires k in ks
    ensures i < |ks| && ks[i] == k
    ensures forall j :: 0 <= j < i ==> ks[j] != k
  {
    var init := ks[..|ks| - 1];
    assert ks == init + [ks[|ks| - 1]];
    if k in init then IndexOf(init, k) else |ks| - 1
  }

  lemma IndexOfUnique<K>(ks: seq<K>, i: nat)
    requires NoDuplicates(ks) && i < |ks|
    ensures IndexOf(ks, ks[i]) == i
  {
  }

  lemma IndexOfLast<K>(ks: seq<K>, k: K)
    requires k !in ks
    ensures IndexOf(ks + [k], k) == |ks|
  {
  }

  lemma IndexOfPrefix<K>(ks: seq<K>, more: seq<K>, k: K)
    requires ks <= more && k in ks
    ensures k in more && IndexOf(more, k) == IndexOf(ks, k)
  {
    var i := IndexOf(ks, k);
    assert more[i] == ks[i];
    assert forall j :: 0 <= j < i ==> more[j] == ks[j];
  }

  /** A dict after `d[ks[i]] = vs[i]` for every `i` in turn. */
  function Dict<K(==,!new), V>(ks: seq<K>, vs: seq<V>): (d: map<K, V>)
    requires |ks| == |vs|
    ensures forall k :: k in d <==> k in ks
  {
    if |ks| == 0 then map[]
    else
      var n := |ks| - 1;
      assert ks == ks[..n] + [ks[n]];
      Dict(ks[..n], vs[..n])[ks[n] := vs[n]]
  }

  lemma {:induction false} DictAt<K(!new), V>(ks: seq<K>, vs: seq<V>, i: nat)
    requires |ks| == |vs| && NoDuplicates(ks) && i < |ks|
    ensures Dict(ks, vs)[ks[i]] == vs[i]
  {
    var n := |ks| - 1;
    if i < n {
      DictAt(ks[..n], vs[..n], i);
      assert ks[..n][i] == ks[i];
    }
  }

  // --------------------------------------------------------------- flattening

  function Flatten<T(!new)>(ss: seq<seq<T>>): (r: seq<T>)
    ensures forall x :: x in r <==> exists i :: 0 <= i < |ss| && x in ss[i]
  {
    if |ss| == 0 then []
    else
      var last := ss[|ss| - 1];
      var init := ss[..|ss| - 1];
      assert forall i :: 0 <= i < |init| ==> ss[i] == init[i];
      Flatten(init) + last
  }

  /** A partition into runs: non-empty, one key each, no key twice. */
  ghost predicate Runs<T(!new), K(!new)>(f: T -> K, ss: seq<seq<T>>) {
    && (forall i :: 0 <= i < |ss| ==> |ss[i]| > 0)
    && (forall i, x :: 0 <= i < |ss| && x in ss[i] ==> f(x) == f(ss[i][0]))
    && (forall i, j :: 0 <= i < j < |ss| ==> f(ss[i][0]) != f(ss[j][0]))
  }

  lemma RunsInit<T(!new), K(!new)>(f: T -> K, ss: seq<seq<T>>)
    requires Runs(f, ss) && |ss| > 0
    ensures Runs(f, ss[..|ss| - 1])
    ensures forall x :: x in Flatten(ss[..|ss| - 1]) ==> f(x) != f(ss[|ss| - 1][0])
  {
    var init := ss[..|ss| - 1];
    assert forall i :: 0 <= i < |init| ==> init[i] == ss[i];
  }

  /** Grouping the concatenation of runs gives the runs back: their keys ... */
  lemma {:induction false} RunsKeys<T(!new), K(!new)>(f: T -> K, ss: seq<seq<T>>)
    requires Runs(f, ss)
    ensures |Keys(f, Flatten(ss))| == |ss|
    ensures forall i :: 0 <= i < |ss| ==> Keys(f, Flatten(ss))[i] == f(ss[i][0])
  {
    if |ss| > 0 {
      var init := ss[..|ss| - 1];
      RunsInit(f, ss);
      RunsKeys(f, init);
      KeysAppendRun(f, Flatten(init), ss[|ss| - 1], f(ss[|ss| - 1][0]));
    }
  }

  /** ... and their contents. */
  lemma {:induction false} RunsSelect<T(!new), K(!new)>(f: T -> K, ss: seq<seq<T>>, i: nat)
    requires Runs(f, ss) && i < |ss|
    ensures Select(f, Flatten(ss), f(ss[i][0])) == ss[i]
  {
    var n := |ss| - 1;
    var init := ss[..n];
    var k := f(ss[i][0]);
    RunsInit(f, ss);
    SelectConcat(f, Flatten(init), ss[n], k);
    if i < n {
      RunsSelect(f, init, i);
      SelectNone(f, ss[n], k);
    } else {
      SelectNone(f, Flatten(init), k);
      SelectAll(f, ss[n], k);
    }
  }

  // ------------------------------------------------------------------ sorting

  type Key = (int, int)

  /** Lexicographic order on pairs, as Python compares tuples. */
  predicate Leq(a: Key, b: Key) {
    a.0 < b.0 || (a.0 == b.0 && a.1 <= b.1)
  }

  predicate Less(a: Key, b: Key) {
    Leq(a, b) && a != b
  }

  ghost predicate Sorted<T>(key: T -> Key, s: seq<T>) {
    forall i, j :: 0 <= i < j < |s| ==> Leq(key(s[i]), key(s[j]))
  }

  function Insert<T>(key: T -> Key, x: T, s: seq<T>): (r: seq<T>)
    ensures |r| == |s| + 1
  {
    if |s| == 0 || Leq(key(s[|s| - 1]), key(x)) then s + [x]
    else Insert(key, x, s[..|s| - 1]) + [s[|s| - 1]]
  }

  /** Python's `sorted(s, key=key)`: ascending and stable. */
  function SortBy<T>(key: T -> Key, s: seq<T>): (r: seq<T>)
    ensures |r| == |s|
  {
    if |s| == 0 then [] else Insert(key, s[|s| - 1], SortBy(key, s[..|s| - 1]))
  }

  lemma {:induction false} InsertMultiset<T(!new)>(key: T -> Key, x: T, s: seq<T>)
    ensures multiset(Insert(key, x, s)) == multiset(s) + multiset{x}
  {
    if !(|s| == 0 || Leq(key(s[|s| - 1]), key(x))) {
      InsertMultiset(key, x, s[..|s| - 1]);
      assert s == s[..|s| - 1] + [s[|s| - 1]];
    }
  }

  lemma AppendSorted<T(!new)>(key: T -> Key, s: seq<T>, x: T)
    requires Sorted(key, s) && forall y :: y in s ==> Leq(key(y), key(x))
    ensures Sorted(key, s + [x])
  {
    forall i | 0 <= i < |s| ensures Leq(key(s[i]), key(x)) {
      assert s[i] in s;
    }
  }

  lemma SortedLast<T>(key: T -> Key, s: seq<T>, y: T)
    requires Sorted(key, s) && y in s
    ensures Leq(key(y), key(s[|s| - 1]))
  {
    var i :| 0 <= i < |s| && s[i] == y;
  }

  lemma InsertMembers<T(!new)>(key: T -> Key, x: T, s: seq<T>, y: T)
    ensures y in Insert(key, x, s) <==> y in s || y == x
  {
    InsertMultiset(key, x, s);
    assert y in Insert(key, x, s) <==> y in multiset(Insert(key, x, s));
    assert y in s <==> y in multiset(s);
  }

  lemma {:induction false} InsertSorted<T(!new)>(key: T -> Key, x: T, s: seq<T>)
    requires Sorted(key, s)
    ensures Sorted(key, Insert(key, x, s))
  {
    if |s| == 0 || Leq(key(s[|s| - 1]), key(x)) {
      forall y | y in s ensures Leq(key(y), key(x)) {
        SortedLast(key, s, y);
      }
      AppendSorted(key, s, x);
    } else {
      var init, last := s[..|s| - 1], s[|s| - 1];
      InsertSorted(key, x, init);
      forall y | y in Insert(key, x, init) ensures Leq(key(y), key(last)) {
        InsertMembers(key, x, init, y);
        if y in init {
          SortedLast(key, s, y);
        }
      }
      AppendSorted(key, Insert(key, x, init), last);
    }
  }

  lemma {:induction false} SortCorrect<T(!new)>(key: T -> Key, s: seq<T>)
    ensures Sorted(key, SortBy(key, s))
    ensures multiset(SortBy(key, s)) == multiset(s)
    ensures forall x :: x in SortBy(key, s) <==> x in s
  {
    if |s| > 0 {
      var init := s[..|s| - 1];
      SortCorrect(key, init);
      InsertSorted(key, s[|s| - 1], SortBy(key, init));
      InsertMultiset(key, s[|s| - 1], SortBy(key, init));
      assert s == init + [s[|s| - 1]];
    }
    MultisetMembership(SortBy(key, s), s);
  }

  lemma {:induction false} InsertStable<T(!new)>(key: T -> Key, x: T, s: seq<T>, k: Key)
    requires Sorted(key, s)
    ensures Select(key, Insert(key, x, s), k) == Select(key, s + [x], k)
  {
    assert (s + [x])[..|s|] == s;
    if !(|s| == 0 || Leq(key(s[|s| - 1]), key(x))) {
      var init := s[..|s| - 1];
      var last := s[|s| - 1];
      InsertStable(key, x, init, k);
      assert (init + [x])[..|init|] == init;
      var r := Insert(key, x, s);
      assert r[..|r| - 1] == Insert(key, x, init);
    }
  }

  /** Elements with equal keys keep their input order. */
  lemma {:induction false} SortStable<T(!new)>(key: T -> Key, s: seq<T>, k: Key)
    ensures Select(key, SortBy(key, s), k) == Select(key, s, k)
  {
    if |s| > 0 {
      var init := s[..|s| - 1];
      SortStable(key, init, k);
      SortCorrect(key, init);
      InsertStable(key, s[|s| - 1], SortBy(key, init), k);
      SelectAppend(key, SortBy(key, init), s[|s| - 1], k);
    }
  }

  lemma {:induction false} SortSorted<T(!new)>(key: T -> Key, s: seq<T>)
    requires Sorted(key, s)
    ensures SortBy(key, s) == s
  {
    if |s| > 0 {
      var init, last := s[..|s| - 1], s[|s| - 1];
      SortSorted(key, init);
      assert |init| > 0 ==> Leq(key(init[|init| - 1]), key(last));
      assert Insert(key, last, init) == init + [last];
      assert s == init + [last];
    }
  }

  /** Keys tell the elements of `s` apart. */
  ghost predicate KeysDistinguish<T(!new)>(key: T -> Key, s: seq<T>) {
    forall x, y :: x in s && y in s && key(x) == key(y) ==> x == y
  }

  lemma SameLast<T(!new)>(key: T -> Key, a: seq<T>, b: seq<T>)
    requires Sorted(key, a) && Sorted(key, b) && |a| == |b| > 0
    requires forall x :: x in a <==> x in b
    requires KeysDistinguish(key, a)
    ensures a[|a| - 1] == b[|b| - 1]
  {
    var x, y := a[|a| - 1], b[|b| - 1];
    assert x in a && y in b;
    SortedLast(key, b, x);
    SortedLast(key, a, y);
  }

  lemma InitMultiset<T>(s: seq<T>)
    requires |s| > 0
    ensures multiset(s) == multiset(s[..|s| - 1]) + multiset{s[|s| - 1]}
  {
    assert s == s[..|s| - 1] + [s[|s| - 1]];
  }

  lemma DropLast<T(!new)>(a: seq<T>, b: seq<T>)
    requires multiset(a) == multiset(b) && |a| > 0 && |b| > 0 && a[|a| - 1] == b[|b| - 1]
    ensures multiset(a[..|a| - 1]) == multiset(b[..|b| - 1])
  {
    InitMultiset(a);
    InitMultiset(b);
    CancelOne(multiset(a[..|a| - 1]), multiset(b[..|b| - 1]), a[|a| - 1]);
  }

  lemma {:induction false} SortedUnique<T(!new)>(key: T -> Key, a: seq<T>, b: seq<T>)
    requires Sorted(key, a) && Sorted(key, b)
    requires multiset(a) == multiset(b)
    requires KeysDistinguish(key, a)
    ensures a == b
    decreases |a|
  {
    MultisetMembership(a, b);
    if |a| > 0 {
      var n := |a| - 1;
      SameLast(key, a, b);
      DropLast(a, b);
      forall x | x in a[..n] ensures x in a {}
      SortedUnique(key, a[..n], b[..n]);
      assert a == a[..n] + [a[n]] && b == b[..n] + [b[n]];
    }
  }

  /** With distinguishing keys a sort forgets the arrival order. */
  lemma SortPermutation<T(!new)>(key: T -> Key, a: seq<T>, b: seq<T>)
    requires multiset(a) == multiset(b)
    requires KeysDistinguish(key, a)
    ensures SortBy(key, a) == SortBy(key, b)
  {
    SortCorrect(key, a);
    SortCorrect(key, b);
    SortedUnique(key, SortBy(key, a), SortBy(key, b));
  }

  lemma {:induction false} InsertMap<A(!new), B(!new)>(f: A -> B, ka: A -> Key, kb: B -> Key, x: A, s: seq<A>)
    requires kb(f(x)) == ka(x)
    requires forall y :: y in s ==> kb(f(y)) == ka(y)
    ensures MapSeq(f, Insert(ka, x, s)) == Insert(kb, f(x), MapSeq(f, s))
  {
    if !(|s| == 0 || Leq(ka(s[|s| - 1]), ka(x))) {
      var init := s[..|s| - 1];
      InsertMap(f, ka, kb, x, init);
      assert MapSeq(f, s)[..|s| - 1] == MapSeq(f, init);
    }
  }

  /** Sorting commutes with a map that keeps the keys. */
  lemma {:induction false} SortMap<A(!new), B(!new)>(f: A -> B, ka: A -> Key, kb: B -> Key, s: seq<A>)
    requires forall y :: y in s ==> kb(f(y)) == ka(y)
    ensures MapSeq(f, SortBy(ka, s)) == SortBy(kb, MapSeq(f, s))
  {
    if |s| > 0 {
      var init := s[..|s| - 1];
      SortMap(f, ka, kb, init);
      SortCorrect(ka, init);
      InsertMap(f, ka, kb, s[|s| - 1], SortBy(ka, init));
      assert MapSeq(f, s)[..|s| - 1] == MapSeq(f, init);
    }
  }

  lemma {:induction false} SelectMap<A(!new), B(!new), K(!new)>(f: A -> B, ga: A -> K, gb: B -> K, s: seq<A>, k: K)
    requires forall y :: y in s ==> gb(f(y)) == ga(y)
    ensures Select(gb, MapSeq(f, s), k) == MapSeq(f, Select(ga, s, k))
  {
    if |s| > 0 {
      SelectMap(f, ga, gb, s[..|s| - 1], k);
      assert MapSeq(f, s)[..|s| - 1] == MapSeq(f, s[..|s| - 1]);
    }
  }

  lemma {:induction false} KeysMap<A(!new), B(!new), K(!new)>(f: A -> B, ga: A -> K, gb: B -> K, s: seq<A>)
    requires forall y :: y in s ==> gb(f(y)) == ga(y)
    ensures Keys(gb, MapSeq(f, s)) == Keys(ga, s)
  {
    if |s| > 0 {
      KeysMap(f, ga, gb, s[..|s| - 1]);
      assert MapSeq(f, s)[..|s| - 1] == MapSeq(f, s[..|s| - 1]);
    }
  }
}
