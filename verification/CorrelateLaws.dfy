/** What `correlate` promises: a stable regrouping, idempotent, blind to arrival, a forest. */
module CorrelateLaws {
  import opened Sequences
  import opened Events
  import opened Correlate

  // ---------------------------------------------------------- shape of groups

  /** Non-empty runs of one correlation id each, every run in key order. */
  ghost predicate Grouped(gs: seq<seq<Event>>) {
    && Runs(CorrOf, gs)
    && (forall i :: 0 <= i < |gs| ==> Sorted(EventKey, gs[i]))
    && Sorted(GroupKey, gs)
  }

  /** `g` is what `es` holds for one correlation id, in key order. */
  ghost predicate OwnGroup(es: seq<Event>, g: seq<Event>) {
    |g| > 0 && g == SortedGroup(es, CorrOf(g[0]))
  }

  lemma OwnGroupShape(es: seq<Event>, g: seq<Event>)
    requires OwnGroup(es, g)
    ensures Sorted(EventKey, g)
    ensures forall x :: x in g <==> x in es && CorrOf(x) == CorrOf(g[0])
  {
    SelectMembers(CorrOf, es, CorrOf(g[0]));
    SortCorrect(EventKey, Select(CorrOf, es, CorrOf(g[0])));
  }

  lemma SortedGroupOwn(es: seq<Event>, e: Event)
    requires e in es
    ensures OwnGroup(es, SortedGroup(es, CorrOf(e)))
    ensures CorrOf(SortedGroup(es, CorrOf(e))[0]) == CorrOf(e)
  {
    var g := SortedGroup(es, CorrOf(e));
    SelectMembers(CorrOf, es, CorrOf(e));
    SortCorrect(EventKey, Select(CorrOf, es, CorrOf(e)));
    assert e in g && g[0] in g;
  }

  lemma PartitionShape(es: seq<Event>)
    ensures forall g :: g in Partition(es) <==> OwnGroup(es, g)
    ensures NoDuplicates(Partition(es))
  {
    var ks, p := Keys(CorrOf, es), Partition(es);
    KeysDistinct(CorrOf, es);
    forall i | 0 <= i < |p| ensures OwnGroup(es, p[i]) && CorrOf(p[i][0]) == ks[i] {
      assert ks[i] in ks;
      var x := KeysFrom(CorrOf, es, ks[i]);
      SortedGroupOwn(es, x);
    }
    forall g | OwnGroup(es, g) ensures g in p {
      OwnGroupShape(es, g);
      KeysContain(CorrOf, es, g[0]);
      var i := IndexOf(ks, CorrOf(g[0]));
      assert p[i] == g;
    }
  }

  /** The groups are exactly the per-id selections of the stream, once each. */
  lemma GroupsMembers(es: seq<Event>)
    ensures forall g :: g in Groups(es) <==> OwnGroup(es, g)
    ensures NoDuplicates(Groups(es))
    ensures Sorted(GroupKey, Groups(es))
  {
    PartitionShape(es);
    SortCorrect(GroupKey, Partition(es));
    PermutationNoDuplicates(Partition(es), Groups(es));
  }

  lemma GroupsShape(es: seq<Event>)
    ensures Grouped(Groups(es))
    ensures forall i :: 0 <= i < |Groups(es)| ==> OwnGroup(es, Groups(es)[i])
  {
    var gs := Groups(es);
    GroupsMembers(es);
    forall i | 0 <= i < |gs|
      ensures OwnGroup(es, gs[i]) && Sorted(EventKey, gs[i])
      ensures forall x :: x in gs[i] ==> CorrOf(x) == CorrOf(gs[i][0])
    {
      assert gs[i] in gs;
      OwnGroupShape(es, gs[i]);
    }
  }

  lemma GroupOf(es: seq<Event>, e: Event) returns (i: nat)
    requires e in es
    ensures i < |Groups(es)| && OwnGroup(es, Groups(es)[i]) && CorrOf(Groups(es)[i][0]) == CorrOf(e)
  {
    GroupsMembers(es);
    SortedGroupOwn(es, e);
    i := IndexOf(Groups(es), SortedGroup(es, CorrOf(e)));
  }

  /** Grouping keeps every event, as often as it came. */
  lemma GroupsPermute(es: seq<Event>)
    ensures multiset(Flatten(Groups(es))) == multiset(es)
  {
    GroupsShape(es);
    forall x ensures multiset(Flatten(Groups(es)))[x] == multiset(es)[x] {
      GroupsPermuteAt(es, x);
    }
  }

  lemma GroupsPermuteAt(es: seq<Event>, x: Event)
    requires Grouped(Groups(es))
    ensures multiset(Flatten(Groups(es)))[x] == multiset(es)[x]
  {
    var gs := Groups(es);
    if x in es {
      var i := GroupOf(es, x);
      RunsSelect(CorrOf, gs, i);
      SortCorrect(EventKey, Select(CorrOf, es, CorrOf(x)));
      SelectMultiset(CorrOf, Flatten(gs), CorrOf(x), x);
      SelectMultiset(CorrOf, es, CorrOf(x), x);
    } else if x in Flatten(gs) {
      var i :| 0 <= i < |gs| && x in gs[i];
      GroupsMembers(es);
      assert gs[i] in gs;
      OwnGroupShape(es, gs[i]);
    }
  }

  // ---------------------------------------------------------- shape of output

  function Start(gs: seq<seq<Event>>, i: nat): nat
    requires i <= |gs|
  {
    |Flatten(gs[..i])|
  }

  lemma StartStep(gs: seq<seq<Event>>, i: nat)
    requires i < |gs|
    ensures Start(gs, i + 1) == Start(gs, i) + |gs[i]|
  {
    assert gs[..i + 1][..i] == gs[..i];
  }

  lemma {:induction false} StartMonotone(gs: seq<seq<Event>>, i: nat, j: nat)
    requires i <= j <= |gs|
    ensures Start(gs, i) <= Start(gs, j)
    decreases j
  {
    if i < j {
      StartMonotone(gs, i, j - 1);
      StartStep(gs, j - 1);
    }
  }

  lemma {:induction false} NumberAllAt(gs: seq<seq<Event>>, i: nat)
    requires i < |gs|
    ensures NumberAll(gs)[i] == Numbered(gs[i], Start(gs, i))
  {
    var n := |gs| - 1;
    if i < n {
      NumberAllAt(gs[..n], i);
      assert gs[..n][..i] == gs[..i];
    }
  }

  /** What one output event is, in terms of the sorted input group. */
  lemma OutAt(es: seq<Event>, i: nat, j: nat)
    requires i < |Groups(es)| && j < |Groups(es)[i]|
    ensures |OutGroups(es)| == |Groups(es)| && |OutGroups(es)[i]| == |Groups(es)[i]|
    ensures OutGroups(es)[i][j]
         == Groups(es)[i][j].(parent := LinkedParent(Groups(es)[i], j), sequence := Start(LinkAll(Groups(es)), i) + j)
  {
    NumberAllAt(LinkAll(Groups(es)), i);
  }

  lemma {:induction false} NumberedPosition(gs: seq<seq<Event>>, k: nat)
    requires k < |Flatten(gs)|
    ensures |Flatten(NumberAll(gs))| == |Flatten(gs)|
    ensures Flatten(NumberAll(gs))[k] == Flatten(gs)[k].(sequence := k)
  {
    NumberedLength(gs);
    var n := |gs| - 1;
    var init := gs[..n];
    NumberedLength(init);
    assert NumberAll(gs)[..n] == NumberAll(init);
    if k < |Flatten(init)| {
      NumberedPosition(init, k);
    }
  }

  lemma {:induction false} NumberedLength(gs: seq<seq<Event>>)
    ensures |Flatten(NumberAll(gs))| == |Flatten(gs)|
  {
    if |gs| > 0 {
      NumberedLength(gs[..|gs| - 1]);
      assert NumberAll(gs)[..|gs| - 1] == NumberAll(gs[..|gs| - 1]);
    }
  }

  /** An event without the two fields that correlation may set. */
  function Erase(e: Event): Event {
    e.(sequence := 0, parent := None)
  }

  lemma {:induction false} EraseLinks(gs: seq<seq<Event>>)
    ensures MapSeq(Erase, Flatten(LinkAll(gs))) == MapSeq(Erase, Flatten(gs))
  {
    if |gs| > 0 {
      var n := |gs| - 1;
      EraseLinks(gs[..n]);
      assert LinkAll(gs)[..n] == LinkAll(gs[..n]);
      assert MapSeq(Erase, Link(gs[n])) == MapSeq(Erase, gs[n]);
      MapConcat(Erase, Flatten(LinkAll(gs[..n])), Link(gs[n]));
      MapConcat(Erase, Flatten(gs[..n]), gs[n]);
    }
  }

  /** An output group holds the events of its input group, in key order. */
  ghost predicate Mirrors(out: seq<Event>, g: seq<Event>) {
    && |out| == |g| > 0
    && Sorted(EventKey, out)
    && forall x :: x in out ==> CorrOf(x) == CorrOf(g[0])
  }

  lemma OutGroupShape(es: seq<Event>, i: nat)
    requires Grouped(Groups(es)) && i < |Groups(es)|
    ensures |OutGroups(es)| == |Groups(es)| && Mirrors(OutGroups(es)[i], Groups(es)[i])
    ensures GroupKey(OutGroups(es)[i]) == (Groups(es)[i][0].timestamp, Start(LinkAll(Groups(es)), i))
  {
    var g, out := Groups(es)[i], OutGroups(es)[i];
    NumberAllAt(LinkAll(Groups(es)), i);
    forall j, k | 0 <= j < k < |out| ensures Leq(EventKey(out[j]), EventKey(out[k])) {
      assert Leq(EventKey(g[j]), EventKey(g[k]));
    }
    forall j | 0 <= j < |out| ensures CorrOf(out[j]) == CorrOf(g[0]) {
      assert g[j] in g;
    }
  }

  lemma OutHeadsSorted(es: seq<Event>)
    requires Grouped(Groups(es))
    ensures Sorted(GroupKey, OutGroups(es))
  {
    var gs, out := Groups(es), OutGroups(es);
    forall i, j | 0 <= i < j < |out| ensures Leq(GroupKey(out[i]), GroupKey(out[j])) {
      OutGroupShape(es, i);
      OutGroupShape(es, j);
      assert Leq(GroupKey(gs[i]), GroupKey(gs[j]));
      StartMonotone(LinkAll(gs), i, j);
    }
  }

  lemma MirroredRuns(out: seq<seq<Event>>, gs: seq<seq<Event>>)
    requires Runs(CorrOf, gs) && |out| == |gs|
    requires forall i :: 0 <= i < |gs| ==> Mirrors(out[i], gs[i])
    ensures Runs(CorrOf, out)
    ensures forall i :: 0 <= i < |out| ==> Sorted(EventKey, out[i])
    ensures forall i :: 0 <= i < |out| ==> |out[i]| == |gs[i]| && CorrOf(out[i][0]) == CorrOf(gs[i][0])
  {
    forall i | 0 <= i < |out| ensures |out[i]| == |gs[i]| > 0 && CorrOf(out[i][0]) == CorrOf(gs[i][0]) {
      assert out[i][0] in out[i];
    }
  }

  /** Output groups are again runs in key order, group heads ascending. */
  lemma OutShape(es: seq<Event>)
    ensures Grouped(Groups(es)) && Grouped(OutGroups(es))
    ensures |OutGroups(es)| == |Groups(es)|
    ensures forall i :: 0 <= i < |OutGroups(es)| ==> |OutGroups(es)[i]| == |Groups(es)[i]|
    ensures forall i :: 0 <= i < |OutGroups(es)| ==> CorrOf(OutGroups(es)[i][0]) == CorrOf(Groups(es)[i][0])
  {
    GroupsShape(es);
    OutHeadsSorted(es);
    forall i | 0 <= i < |Groups(es)| ensures |OutGroups(es)| == |Groups(es)| && Mirrors(OutGroups(es)[i], Groups(es)[i]) {
      OutGroupShape(es, i);
    }
    MirroredRuns(OutGroups(es), Groups(es));
  }

  /** `correlate` is a stable regrouping sort: it permutes its input except for sequence and
      parent, numbers the output 0..n-1, keeps each correlation group contiguous and in
      timestamp order, keeps arrival order between equal (timestamp, sequence) pairs of a
      group, and orders the groups by their first event's (timestamp, sequence). */
  lemma CorrelateIsStableRegrouping(es: seq<Event>)
    ensures multiset(MapSeq(Erase, Correlated(es))) == multiset(MapSeq(Erase, es))
    ensures forall k :: 0 <= k < |Correlated(es)| ==> Correlated(es)[k].sequence == k
    ensures Correlated(es) == Flatten(OutGroups(es)) && Grouped(OutGroups(es))
    ensures MapSeq(Erase, Correlated(es)) == MapSeq(Erase, Flatten(Groups(es)))
    ensures Grouped(Groups(es)) && multiset(Flatten(Groups(es))) == multiset(es)
    ensures forall g, key :: g in Groups(es) ==>
        Select(EventKey, g, key) == Select(EventKey, Select(CorrOf, es, CorrOf(g[0])), key)
  {
    var gs, out := Groups(es), Correlated(es);
    var linked := LinkAll(gs);
    GroupsShape(es);
    GroupsPermute(es);
    NumberedLength(linked);
    forall k | 0 <= k < |out| ensures out[k].sequence == k && Erase(out[k]) == Erase(Flatten(linked)[k]) {
      NumberedPosition(linked, k);
    }
    assert MapSeq(Erase, out) == MapSeq(Erase, Flatten(linked));
    EraseLinks(gs);
    MapPermutation(Erase, Flatten(gs), es);
    OutShape(es);
    forall g, key | g in gs
      ensures Select(EventKey, g, key) == Select(EventKey, Select(CorrOf, es, CorrOf(g[0])), key)
    {
      GroupsMembers(es);
      SortStable(EventKey, Select(CorrOf, es, CorrOf(g[0])), key);
    }
  }

  lemma CorrelatedUniqueIds(es: seq<Event>)
    requires UniqueIds(es)
    ensures UniqueIds(Correlated(es))
  {
    CorrelateIsStableRegrouping(es);
    var a, b := MapSeq(Erase, es), MapSeq(Erase, Correlated(es));
    UniqueIdsPermutation(a, b);
    forall i, j | 0 <= i < j < |Correlated(es)| ensures Correlated(es)[i].eventId != Correlated(es)[j].eventId {
      assert b[i].eventId != b[j].eventId;
    }
  }

  /** Each input event has its output ... */
  lemma OutputOf(es: seq<Event>, e: Event) returns (j: nat)
    requires e in es
    ensures j < |Correlated(es)| && Erase(Correlated(es)[j]) == Erase(e)
  {
    CorrelateIsStableRegrouping(es);
    var k :| 0 <= k < |es| && es[k] == e;
    assert MapSeq(Erase, es)[k] == Erase(e);
    MultisetMembership(MapSeq(Erase, Correlated(es)), MapSeq(Erase, es));
    assert Erase(e) in MapSeq(Erase, Correlated(es));
    j :| 0 <= j < |Correlated(es)| && MapSeq(Erase, Correlated(es))[j] == Erase(e);
  }

  /** ... and each output its input. */
  lemma InputOf(es: seq<Event>, x: Event) returns (e: Event)
    requires x in Correlated(es)
    ensures e in es && Erase(e) == Erase(x)
  {
    CorrelateIsStableRegrouping(es);
    var j :| 0 <= j < |Correlated(es)| && Correlated(es)[j] == x;
    assert MapSeq(Erase, Correlated(es))[j] == Erase(x);
    MultisetMembership(MapSeq(Erase, Correlated(es)), MapSeq(Erase, es));
    assert Erase(x) in MapSeq(Erase, es);
    var k :| 0 <= k < |es| && MapSeq(Erase, es)[k] == Erase(x);
    e := es[k];
  }

  // -------------------------------------------------------------- idempotence

  /** Grouping an already grouped stream finds the same groups in the same order. */
  lemma GroupedFixed(gs: seq<seq<Event>>)
    requires Grouped(gs)
    ensures Groups(Flatten(gs)) == gs
  {
    RunsKeys(CorrOf, gs);
    forall i | 0 <= i < |gs| ensures SortedGroup(Flatten(gs), CorrOf(gs[i][0])) == gs[i] {
      RunsSelect(CorrOf, gs, i);
      SortSorted(EventKey, gs[i]);
    }
    assert Partition(Flatten(gs)) == gs;
    SortSorted(GroupKey, gs);
  }

  /** Same ids and types, position by position. */
  ghost predicate SameLinks(a: seq<Event>, b: seq<Event>) {
    |a| == |b| && forall i :: 0 <= i < |a| ==> a[i].eventId == b[i].eventId && a[i].kind == b[i].kind
  }

  lemma {:induction false} SameRoot(a: seq<Event>, b: seq<Event>)
    requires SameLinks(a, b)
    ensures Root(a).Some? == Root(b).Some?
    ensures Root(a).Some? ==> Root(a).value.eventId == Root(b).value.eventId
  {
    if |a| > 0 {
      SameRoot(a[..|a| - 1], b[..|a| - 1]);
    }
  }

  lemma {:induction false} SameLastQuery(a: seq<Event>, b: seq<Event>, n: nat)
    requires SameLinks(a, b) && n <= |a|
    ensures LastQuery(a, n).Some? == LastQuery(b, n).Some?
    ensures LastQuery(a, n).Some? ==> LastQuery(a, n).value.eventId == LastQuery(b, n).value.eventId
  {
    if n > 0 && !a[n - 1].kind.PgQuery? {
      SameLastQuery(a, b, n - 1);
    }
  }

  lemma LinkFixed(g: seq<Event>, start: int)
    ensures Link(Numbered(Link(g), start)) == Numbered(Link(g), start)
  {
    var out := Numbered(Link(g), start);
    SameRoot(g, out);
    forall i | 0 <= i < |g| ensures LinkedParent(out, i) == out[i].parent {
      SameLastQuery(g, out, i);
    }
  }

  lemma {:induction false} SameStart(a: seq<seq<Event>>, b: seq<seq<Event>>, i: nat)
    requires |a| == |b| && i <= |a|
    requires forall j :: 0 <= j < |a| ==> |a[j]| == |b[j]|
    ensures Start(a, i) == Start(b, i)
  {
    if i > 0 {
      SameStart(a, b, i - 1);
      StartStep(a, i - 1);
      StartStep(b, i - 1);
    }
  }

  lemma OutGroupFixed(es: seq<Event>, i: nat)
    requires |OutGroups(es)| == |Groups(es)| && i < |OutGroups(es)|
    requires forall j :: 0 <= j < |OutGroups(es)| ==> |OutGroups(es)[j]| == |Groups(es)[j]|
    ensures Link(OutGroups(es)[i]) == OutGroups(es)[i]
    ensures NumberAll(OutGroups(es))[i] == OutGroups(es)[i]
  {
    var out, linked := OutGroups(es), LinkAll(Groups(es));
    NumberAllAt(linked, i);
    LinkFixed(Groups(es)[i], Start(linked, i));
    SameStart(linked, out, i);
    NumberAllAt(out, i);
  }

  /** Correlating a correlated stream changes nothing, whatever the stream. */
  lemma CorrelateIdempotent(es: seq<Event>)
    ensures Correlated(Correlated(es)) == Correlated(es)
    ensures Groups(Correlated(es)) == OutGroups(es)
  {
    var out := OutGroups(es);
    OutShape(es);
    GroupedFixed(out);
    forall i | 0 <= i < |out| ensures Link(out[i]) == out[i] && NumberAll(out)[i] == out[i] {
      OutGroupFixed(es, i);
    }
    assert LinkAll(out) == out;
    assert NumberAll(out) == out;
  }

  // ------------------------------------------------------------ arrival order

  ghost predicate ArrivalIndependent(es: seq<Event>) {
    forall other :: multiset(other) == multiset(es) ==> Correlated(other) == Correlated(es)
  }

  /** `x` has the least (timestamp, sequence) of its correlation group. */
  ghost predicate IsHead(es: seq<Event>, x: Event) {
    x in es && forall y :: y in es && CorrOf(y) == CorrOf(x) ==> Leq(EventKey(x), EventKey(y))
  }

  /** (timestamp, sequence) tells apart the events of one group, and the heads of the groups. */
  ghost predicate Unambiguous(es: seq<Event>) {
    && (forall x, y :: x in es && y in es && KeyedAlike(x, y) && CorrOf(x) == CorrOf(y) ==> x == y)
    && (forall x, y :: IsHead(es, x) && IsHead(es, y) && KeyedAlike(x, y) ==> CorrOf(x) == CorrOf(y))
  }

  predicate KeyedAlike(x: Event, y: Event) {
    EventKey(x) == EventKey(y)
  }

  lemma OwnGroupHead(es: seq<Event>, g: seq<Event>)
    requires OwnGroup(es, g)
    ensures IsHead(es, g[0])
  {
    OwnGroupShape(es, g);
    forall y | y in es && CorrOf(y) == CorrOf(g[0]) ensures Leq(EventKey(g[0]), EventKey(y)) {
      assert y in g;
      var j :| 0 <= j < |g| && g[j] == y;
    }
  }

  lemma SameGroups(es: seq<Event>, other: seq<Event>, g: seq<Event>)
    requires multiset(other) == multiset(es) && Unambiguous(es)
    requires |g| > 0
    ensures OwnGroup(es, g) <==> OwnGroup(other, g)
  {
    var c := CorrOf(g[0]);
    SelectPermutation(CorrOf, es, other, c);
    SelectMembers(CorrOf, es, c);
    forall x, y | x in Select(CorrOf, es, c) && y in Select(CorrOf, es, c) && EventKey(x) == EventKey(y) ensures x == y {
      assert KeyedAlike(x, y);
    }
    SortPermutation(EventKey, Select(CorrOf, es, c), Select(CorrOf, other, c));
  }

  lemma UnambiguousIndependent(es: seq<Event>, other: seq<Event>)
    requires Unambiguous(es) && multiset(other) == multiset(es)
    ensures Correlated(other) == Correlated(es)
  {
    var a, b := Groups(es), Groups(other);
    GroupsMembers(es);
    GroupsMembers(other);
    forall g ensures g in a <==> g in b {
      if |g| > 0 {
        SameGroups(es, other, g);
      }
    }
    SameElements(a, b);
    forall g, h | g in a && h in a && GroupKey(g) == GroupKey(h) ensures g == h {
      OwnGroupHead(es, g);
      OwnGroupHead(es, h);
      assert KeyedAlike(g[0], h[0]);
    }
    SortedUnique(GroupKey, a, b);
  }

  /** The output tells which groups produced it. */
  lemma OutputDeterminesGroups(a: seq<Event>, b: seq<Event>)
    requires multiset(a) == multiset(b) && UniqueIds(a)
    requires Correlated(a) == Correlated(b)
    ensures Groups(a) == Groups(b)
  {
    CorrelateIsStableRegrouping(a);
    CorrelateIsStableRegrouping(b);
    var fa, fb := Flatten(Groups(a)), Flatten(Groups(b));
    MultisetMembership(fa, a);
    MultisetMembership(fb, a);
    assert |MapSeq(Erase, fa)| == |MapSeq(Erase, fb)|;
    forall i | 0 <= i < |fa| ensures fa[i] == fb[i] {
      assert MapSeq(Erase, fa)[i] == MapSeq(Erase, fb)[i];
      assert fa[i].eventId == fb[i].eventId;
      assert fa[i] in a && fb[i] in a;
    }
    assert fa == fb;
    GroupedFixed(Groups(a));
    GroupedFixed(Groups(b));
  }

  lemma BringForward(es: seq<Event>, x: Event, y: Event) returns (rest: seq<Event>)
    requires x in es && y in es && x != y
    ensures multiset([x, y] + rest) == multiset(es) && multiset([y, x] + rest) == multiset(es)
  {
    var less := Extract(es, x);
    rest := Extract(less, y);
    PairFirst(x, y, rest);
    PairFirst(y, x, rest);
  }

  lemma PairFirst(x: Event, y: Event, rest: seq<Event>)
    ensures multiset([x, y] + rest) == multiset(rest) + multiset{y} + multiset{x}
  {
    assert multiset([x, y]) == multiset{x, y};
  }

  lemma SameGroupOf(a: seq<Event>, b: seq<Event>, x: Event)
    requires Groups(a) == Groups(b) && x in a
    ensures SortedGroup(a, CorrOf(x)) == SortedGroup(b, CorrOf(x))
  {
    GroupsMembers(a);
    GroupsMembers(b);
    SortedGroupOwn(a, x);
  }

  lemma TiedOrdersDiffer(x: Event, y: Event, rest: seq<Event>)
    requires x != y && CorrOf(x) == CorrOf(y) && EventKey(x) == EventKey(y)
    ensures SortedGroup([x, y] + rest, CorrOf(x)) != SortedGroup([y, x] + rest, CorrOf(x))
  {
    FirstTied(x, [y] + rest);
    FirstTied(y, [x] + rest);
    assert [x, y] + rest == [x] + ([y] + rest) && [y, x] + rest == [y] + ([x] + rest);
  }

  lemma SwapPermutes(x: Event, y: Event, rest: seq<Event>)
    ensures multiset([x, y] + rest) == multiset([y, x] + rest)
  {
    assert multiset([x, y]) == multiset([y, x]);
  }

  /** Two tied events of one group come out in the order they went in. */
  lemma TieInGroupShows(x: Event, y: Event, rest: seq<Event>)
    requires x != y && CorrOf(x) == CorrOf(y) && EventKey(x) == EventKey(y)
    requires UniqueIds([x, y] + rest)
    ensures Correlated([x, y] + rest) != Correlated([y, x] + rest)
  {
    if Correlated([x, y] + rest) == Correlated([y, x] + rest) {
      SwapPermutes(x, y, rest);
      OutputDeterminesGroups([x, y] + rest, [y, x] + rest);
      SameGroupOf([x, y] + rest, [y, x] + rest, x);
      TiedOrdersDiffer(x, y, rest);
    }
  }

  lemma FirstTied(x: Event, rest: seq<Event>)
    ensures |Select(EventKey, SortedGroup([x] + rest, CorrOf(x)), EventKey(x))| > 0
    ensures Select(EventKey, SortedGroup([x] + rest, CorrOf(x)), EventKey(x))[0] == x
  {
    SelectConcat(CorrOf, [x], rest, CorrOf(x));
    assert Select(CorrOf, [x], CorrOf(x)) == [x];
    SortStable(EventKey, Select(CorrOf, [x] + rest, CorrOf(x)), EventKey(x));
    SelectHead(EventKey, x, Select(CorrOf, rest, CorrOf(x)));
  }

  /** Two groups whose heads tie come out in the order they were first seen. */
  lemma TiedHeadsShow(x: Event, y: Event, rest: seq<Event>)
    requires CorrOf(x) != CorrOf(y) && EventKey(x) == EventKey(y)
    requires UniqueIds([x, y] + rest)
    requires IsHead([x, y] + rest, x) && IsHead([x, y] + rest, y)
    ensures Correlated([x, y] + rest) != Correlated([y, x] + rest)
  {
    var a, b := [x, y] + rest, [y, x] + rest;
    assert a == [x] + ([y] + rest) && b == [y] + ([x] + rest);
    assert forall e :: e in a <==> e in b;
    if Correlated(a) == Correlated(b) {
      SwapPermutes(x, y, rest);
      OutputDeterminesGroups(a, b);
      FirstGroup(x, [y] + rest);
      FirstGroup(y, [x] + rest);
    }
  }

  lemma FirstGroup(x: Event, rest: seq<Event>)
    requires IsHead([x] + rest, x)
    ensures |Select(GroupKey, Groups([x] + rest), EventKey(x))| > 0
    ensures |Select(GroupKey, Groups([x] + rest), EventKey(x))[0]| > 0
    ensures CorrOf(Select(GroupKey, Groups([x] + rest), EventKey(x))[0][0]) == CorrOf(x)
  {
    var es := [x] + rest;
    var p := Partition(es);
    KeysPrefix(CorrOf, [x], rest);
    assert Keys(CorrOf, [x]) == [CorrOf(x)];
    assert p[0] == SortedGroup(es, CorrOf(x));
    SortedGroupOwn(es, x);
    OwnGroupShape(es, p[0]);
    OwnGroupHead(es, p[0]);
    assert x in p[0] && p[0][0] in es;
    assert GroupKey(p[0]) == EventKey(x);
    SortStable(GroupKey, p, EventKey(x));
    SelectHead(GroupKey, p[0], p[1..]);
    assert p == [p[0]] + p[1..];
  }

  /** `correlate` ignores the arrival order of a stream exactly when its sort keys decide:
      no tie inside a group and none between group heads. */
  lemma ArrivalOrderIrrelevantExactly(es: seq<Event>)
    requires UniqueIds(es)
    ensures ArrivalIndependent(es) <==> Unambiguous(es)
  {
    if Unambiguous(es) {
      forall other | multiset(other) == multiset(es) ensures Correlated(other) == Correlated(es) {
        UnambiguousIndependent(es, other);
      }
    } else {
      TieShows(es);
    }
  }

  lemma TwoOrders(es: seq<Event>, a: seq<Event>, b: seq<Event>)
    requires multiset(a) == multiset(es) && multiset(b) == multiset(es)
    requires Correlated(a) != Correlated(b)
    ensures !ArrivalIndependent(es)
  {
  }

  lemma TieInGroupMatters(es: seq<Event>, x: Event, y: Event)
    requires UniqueIds(es) && x in es && y in es && x != y && EventKey(x) == EventKey(y)
    requires CorrOf(x) == CorrOf(y)
    ensures !ArrivalIndependent(es)
  {
    var rest := BringForward(es, x, y);
    UniqueIdsPermutation(es, [x, y] + rest);
    TieInGroupShows(x, y, rest);
    TwoOrders(es, [x, y] + rest, [y, x] + rest);
  }

  lemma TiedHeadsMatter(es: seq<Event>, x: Event, y: Event)
    requires UniqueIds(es) && IsHead(es, x) && IsHead(es, y) && EventKey(x) == EventKey(y)
    requires CorrOf(x) != CorrOf(y)
    ensures !ArrivalIndependent(es)
  {
    var rest := BringForward(es, x, y);
    UniqueIdsPermutation(es, [x, y] + rest);
    MultisetMembership(es, [x, y] + rest);
    TiedHeadsShow(x, y, rest);
    TwoOrders(es, [x, y] + rest, [y, x] + rest);
  }

  lemma TieShows(es: seq<Event>)
    requires UniqueIds(es) && !Unambiguous(es)
    ensures !ArrivalIndependent(es)
  {
    if x, y :| x in es && y in es && KeyedAlike(x, y) && CorrOf(x) == CorrOf(y) && x != y {
      TieInGroupMatters(es, x, y);
    } else {
      var x, y :| IsHead(es, x) && IsHead(es, y) && KeyedAlike(x, y) && CorrOf(x) != CorrOf(y);
      TiedHeadsMatter(es, x, y);
    }
  }

  // ------------------------------------------------------------------ parents

  /** A parent link recorded by a producer survives; only gaps are filled. */
  lemma RecordedParentsKept(es: seq<Event>, i: nat, j: nat)
    requires i < |Groups(es)| && j < |Groups(es)[i]|
    requires Recorded(Groups(es)[i][j])
    ensures |OutGroups(es)| == |Groups(es)| && |OutGroups(es)[i]| == |Groups(es)[i]|
    ensures OutGroups(es)[i][j].parent == Groups(es)[i][j].parent
  {
    OutAt(es, i, j);
  }

  /** A group opens with its request and recorded parents are earlier members of it. */
  ghost predicate WellParented(g: seq<Event>) {
    && |g| > 0 && g[0].kind.HttpRequest?
    && forall j :: 0 <= j < |g| && Recorded(g[j]) ==>
        exists k :: 0 <= k < j && g[k].eventId == g[j].parent.value
  }

  /** Every parent is an earlier event of the same correlation id; only requests lack one. */
  ghost predicate ParentsPointBack(out: seq<Event>) {
    forall p :: 0 <= p < |out| ==>
      if out[p].parent.None? then out[p].kind.HttpRequest?
      else exists q :: 0 <= q < p && IsParent(out, q, p)
  }

  predicate IsParent(out: seq<Event>, q: nat, p: nat)
    requires q < |out| && p < |out|
  {
    out[p].parent == Some(out[q].eventId) && out[q].correlationId == out[p].correlationId
  }

  lemma {:induction false} LastQueryEarlier(g: seq<Event>, n: nat) returns (k: nat)
    requires n <= |g| && LastQuery(g, n).Some?
    ensures k < n && g[k] == LastQuery(g, n).value
  {
    if g[n - 1].kind.PgQuery? {
      k := n - 1;
    } else {
      k := LastQueryEarlier(g, n - 1);
    }
  }

  lemma {:induction false} RootIsFirst(g: seq<Event>)
    requires |g| > 0 && g[0].kind.HttpRequest?
    ensures Root(g) == Some(g[0])
  {
    if |g| > 1 {
      RootIsFirst(g[..|g| - 1]);
    }
  }

  lemma LinkPointsBack(g: seq<Event>, j: nat)
    requires WellParented(g) && j < |g|
    ensures LinkedParent(g, j).None? ==> g[j].kind.HttpRequest?
    ensures LinkedParent(g, j).Some? ==>
        exists k :: 0 <= k < j && LinkedParent(g, j) == Some(g[k].eventId)
  {
    RootIsFirst(g);
    if !Recorded(g[j]) && LastQuery(g, j).Some? {
      var k := LastQueryEarlier(g, j);
    }
  }

  lemma {:induction false} FlattenAt(gs: seq<seq<Event>>, i: nat, j: nat)
    requires i < |gs| && j < |gs[i]|
    ensures Start(gs, i) + j < |Flatten(gs)| && Flatten(gs)[Start(gs, i) + j] == gs[i][j]
  {
    var n := |gs| - 1;
    if i < n {
      FlattenAt(gs[..n], i, j);
      assert gs[..n][..i] == gs[..i];
    }
  }

  lemma {:induction false} FlattenIndex(gs: seq<seq<Event>>, p: nat) returns (i: nat, j: nat)
    requires p < |Flatten(gs)|
    ensures i < |gs| && j < |gs[i]| && p == Start(gs, i) + j && Flatten(gs)[p] == gs[i][j]
  {
    var n := |gs| - 1;
    var init := gs[..n];
    if p < |Flatten(init)| {
      i, j := FlattenIndex(init, p);
      assert init[..i] == gs[..i];
    } else {
      i, j := n, p - |Flatten(init)|;
    }
  }

  /** The parents of a correlated stream form a forest of requests. */
  lemma ParentForest(es: seq<Event>)
    requires forall g :: g in Groups(es) ==> WellParented(g)
    ensures ParentsPointBack(Correlated(es))
  {
    var gs, groups, out := Groups(es), OutGroups(es), Correlated(es);
    OutShape(es);
    forall p | 0 <= p < |out|
      ensures if out[p].parent.None? then out[p].kind.HttpRequest?
              else exists q :: 0 <= q < p && IsParent(out, q, p)
    {
      var i, j := FlattenIndex(groups, p);
      OutAt(es, i, j);
      assert gs[i] in gs;
      LinkPointsBack(gs[i], j);
      if out[p].parent.Some? {
        var k :| 0 <= k < j && LinkedParent(gs[i], j) == Some(gs[i][k].eventId);
        OutAt(es, i, k);
        FlattenAt(groups, i, k);
        assert groups[i][k] in groups[i] && groups[i][j] in groups[i];
        assert IsParent(out, Start(groups, i) + k, p);
      }
    }
  }

  /** Following parents ends, at a request of the same correlation id; the sequence number
      goes down at every step. */
  ghost function Ancestor(out: seq<Event>, p: nat): (r: nat)
    requires ParentsPointBack(out) && p < |out|
    ensures r <= p && out[r].kind.HttpRequest? && out[r].correlationId == out[p].correlationId
    ensures out[r].parent.None?
    decreases p
  {
    if out[p].parent.None? then p
    else
      var q :| 0 <= q < p && IsParent(out, q, p);
      Ancestor(out, q)
  }
}
