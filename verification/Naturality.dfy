/** Correlation and linking look at keys, types and ids only, and so commute with redaction and
    re-keying. */
module Naturality {
  import opened Sequences
  import opened Events
  import opened Correlate
  import opened CorrelateLaws
  import opened Linking
  import opened Comparators

  // They commute with every change of events that leaves the keys alone and moves parents with
  // the ids. Redaction and re-keying are such changes.

  type Change = Event -> Event
  type Reparent = Option<string> -> Option<string>

  /** `f` keeps what grouping, sorting and pairing look at. */
  ghost predicate KeepsKeys(f: Change) {
    forall e :: EventKey(f(e)) == EventKey(e) && KindOf(f(e)) == KindOf(e)
  }

  /** `f` treats the parent by `np` alone, and passes sequence numbers through. */
  ghost predicate MovesParents(f: Change, np: Reparent) {
    np(None) == None && forall e: Event, p: Option<string>, n: int :: f(e.(parent := p, sequence := n)) == f(e).(parent := np(p), sequence := n)
  }

  /** On `es`, `np` follows the ids, and a parent is recorded before as after. */
  ghost predicate FollowsIds(f: Change, np: Reparent, es: seq<Event>) {
    forall e :: e in es ==> np(Some(e.eventId)) == Some(f(e).eventId) && (Recorded(f(e)) <==> Recorded(e))
  }

  ghost predicate Natural(f: Change, np: Reparent, es: seq<Event>) {
    KeepsKeys(f) && MovesParents(f, np) && FollowsIds(f, np, es)
  }

  function MapGroups(f: Change, gs: seq<seq<Event>>): seq<seq<Event>> {
    MapSeq((g: seq<Event>) => MapSeq(f, g), gs)
  }

  // ----------------------------------------------------------------- grouping

  lemma SortedGroupNatural(f: Change, es: seq<Event>, c: string)
    requires KeepsKeys(f)
    ensures SortedGroup(MapSeq(f, es), c) == MapSeq(f, SortedGroup(es, c))
  {
    assert forall e :: CorrOf(f(e)) == KindOf(f(e)).0 == KindOf(e).0;
    SelectMap(f, CorrOf, CorrOf, es, c);
    SortMap(f, EventKey, EventKey, Select(CorrOf, es, c));
  }

  lemma GroupsNatural(f: Change, es: seq<Event>)
    requires KeepsKeys(f)
    ensures Groups(MapSeq(f, es)) == MapGroups(f, Groups(es))
  {
    var lift := (g: seq<Event>) => MapSeq(f, g);
    assert forall e :: CorrOf(f(e)) == KindOf(f(e)).0 == KindOf(e).0;
    KeysMap(f, CorrOf, CorrOf, es);
    var ks := Keys(CorrOf, es);
    forall i | 0 <= i < |ks| ensures Partition(MapSeq(f, es))[i] == lift(Partition(es)[i]) {
      SortedGroupNatural(f, es, ks[i]);
    }
    assert Partition(MapSeq(f, es)) == MapSeq(lift, Partition(es));
    SortMap(lift, GroupKey, GroupKey, Partition(es));
  }

  // ------------------------------------------------------------------ parents

  function MapOption(f: Change, e: Option<Event>): Option<Event> {
    match e
    case None => None
    case Some(x) => Some(f(x))
  }

  lemma {:induction false} RootNatural(f: Change, g: seq<Event>)
    requires KeepsKeys(f)
    ensures Root(MapSeq(f, g)) == MapOption(f, Root(g))
  {
    if |g| > 0 {
      RootNatural(f, g[..|g| - 1]);
      assert MapSeq(f, g)[..|g| - 1] == MapSeq(f, g[..|g| - 1]);
      assert KindOf(f(g[|g| - 1])) == KindOf(g[|g| - 1]);
    }
  }

  lemma {:induction false} LastQueryNatural(f: Change, g: seq<Event>, n: nat)
    requires KeepsKeys(f) && n <= |g|
    ensures LastQuery(MapSeq(f, g), n) == MapOption(f, LastQuery(g, n))
  {
    if n > 0 {
      LastQueryNatural(f, g, n - 1);
      assert KindOf(f(g[n - 1])) == KindOf(g[n - 1]);
    }
  }

  lemma {:induction false} RootMember(g: seq<Event>)
    ensures Root(g).Some? ==> Root(g).value in g
  {
    if |g| > 0 {
      RootMember(g[..|g| - 1]);
      assert g == g[..|g| - 1] + [g[|g| - 1]];
    }
  }

  lemma {:induction false} LastQueryMember(g: seq<Event>, n: nat)
    requires n <= |g|
    ensures LastQuery(g, n).Some? ==> LastQuery(g, n).value in g
  {
    if n > 0 {
      LastQueryMember(g, n - 1);
    }
  }

  lemma ParentForNatural(f: Change, np: Reparent, e: Event, root: Option<Event>, last: Option<Event>)
    requires KindOf(f(e)) == KindOf(e) && np(None) == None
    requires root.Some? ==> np(Some(root.value.eventId)) == Some(f(root.value).eventId)
    requires last.Some? ==> np(Some(last.value.eventId)) == Some(f(last.value).eventId)
    ensures ParentFor(f(e), MapOption(f, root), MapOption(f, last)) == np(ParentFor(e, root, last))
  {
    assert KindOf(f(e)).1 == KindOf(e).1;
  }

  lemma OwnParent(f: Change, np: Reparent, e: Event)
    requires MovesParents(f, np)
    ensures f(e).parent == np(e.parent)
  {
    assert e.(parent := e.parent, sequence := e.sequence) == e;
    assert f(e.(parent := e.parent, sequence := e.sequence)) == f(e).(parent := np(e.parent), sequence := e.sequence);
  }

  lemma LinkedParentNatural(f: Change, np: Reparent, g: seq<Event>, i: nat)
    requires Natural(f, np, g) && i < |g|
    ensures LinkedParent(MapSeq(f, g), i) == np(LinkedParent(g, i))
  {
    assert g[i] in g;
    if Recorded(g[i]) {
      OwnParent(f, np, g[i]);
    } else {
      RootNatural(f, g);
      LastQueryNatural(f, g, i);
      RootMember(g);
      LastQueryMember(g, i);
      assert KindOf(f(g[i])) == KindOf(g[i]);
      ParentForNatural(f, np, g[i], Root(g), LastQuery(g, i));
    }
  }

  lemma LinkNatural(f: Change, np: Reparent, g: seq<Event>)
    requires Natural(f, np, g)
    ensures Link(MapSeq(f, g)) == MapSeq(f, Link(g))
  {
    forall i | 0 <= i < |g| ensures Link(MapSeq(f, g))[i] == MapSeq(f, Link(g))[i] {
      LinkedParentNatural(f, np, g, i);
      Relabelled(f, np, g[i], LinkedParent(g, i), g[i].sequence);
    }
  }

  /** `f` of an event with a new parent and number. */
  lemma Relabelled(f: Change, np: Reparent, e: Event, p: Option<string>, n: int)
    requires KeepsKeys(f) && MovesParents(f, np)
    ensures f(e.(parent := p, sequence := n)) == f(e).(parent := np(p), sequence := n)
    ensures f(e.(sequence := n)) == f(e).(sequence := n)
    ensures f(e.(parent := p)) == f(e).(parent := np(p))
  {
    OwnParent(f, np, e);
    assert f(e.(parent := e.parent, sequence := n)) == f(e).(parent := np(e.parent), sequence := n);
    assert e.(parent := e.parent, sequence := n) == e.(sequence := n);
    assert f(e.(parent := p, sequence := e.sequence)) == f(e).(parent := np(p), sequence := e.sequence);
    assert e.(parent := p, sequence := e.sequence) == e.(parent := p);
    assert EventKey(f(e)) == EventKey(e);
  }

  // ---------------------------------------------------------------- numbering

  lemma NumberedNatural(f: Change, np: Reparent, g: seq<Event>, start: int)
    requires KeepsKeys(f) && MovesParents(f, np)
    ensures Numbered(MapSeq(f, g), start) == MapSeq(f, Numbered(g, start))
  {
    forall i | 0 <= i < |g| ensures Numbered(MapSeq(f, g), start)[i] == MapSeq(f, Numbered(g, start))[i] {
      Relabelled(f, np, g[i], g[i].parent, start + i);
    }
  }

  lemma {:induction false} FlattenNatural(f: Change, gs: seq<seq<Event>>)
    ensures Flatten(MapGroups(f, gs)) == MapSeq(f, Flatten(gs))
  {
    if |gs| > 0 {
      var n := |gs| - 1;
      FlattenNatural(f, gs[..n]);
      assert MapGroups(f, gs)[..n] == MapGroups(f, gs[..n]);
      MapConcat(f, Flatten(gs[..n]), gs[n]);
    }
  }

  lemma {:induction false} NumberAllNatural(f: Change, np: Reparent, gs: seq<seq<Event>>)
    requires KeepsKeys(f) && MovesParents(f, np)
    ensures NumberAll(MapGroups(f, gs)) == MapGroups(f, NumberAll(gs))
  {
    if |gs| > 0 {
      var n := |gs| - 1;
      NumberAllNatural(f, np, gs[..n]);
      FlattenNatural(f, gs[..n]);
      assert MapGroups(f, gs)[..n] == MapGroups(f, gs[..n]);
      NumberedNatural(f, np, gs[n], |Flatten(gs[..n])|);
      assert NumberAll(gs)[..n] == NumberAll(gs[..n]);
    }
  }

  lemma LinkAllNatural(f: Change, np: Reparent, gs: seq<seq<Event>>)
    requires forall g :: g in gs ==> Natural(f, np, g)
    ensures LinkAll(MapGroups(f, gs)) == MapGroups(f, LinkAll(gs))
  {
    forall i | 0 <= i < |gs| ensures LinkAll(MapGroups(f, gs))[i] == MapGroups(f, LinkAll(gs))[i] {
      assert gs[i] in gs;
      LinkNatural(f, np, gs[i]);
    }
  }

  lemma GroupNatural(f: Change, np: Reparent, es: seq<Event>, g: seq<Event>)
    requires Natural(f, np, es) && g in Groups(es)
    ensures Natural(f, np, g)
  {
    GroupsMembers(es);
    OwnGroupShape(es, g);
  }

  /** `correlate` commutes with every natural change of the stream. */
  lemma CorrelateNatural(f: Change, np: Reparent, es: seq<Event>)
    requires Natural(f, np, es)
    ensures Correlated(MapSeq(f, es)) == MapSeq(f, Correlated(es))
  {
    GroupsNatural(f, es);
    forall g | g in Groups(es) ensures Natural(f, np, g) {
      GroupNatural(f, np, es, g);
    }
    LinkAllNatural(f, np, Groups(es));
    NumberAllNatural(f, np, LinkAll(Groups(es)));
    FlattenNatural(f, NumberAll(LinkAll(Groups(es))));
  }

  // ------------------------------------------------------------------ linking

  lemma InOrderNatural(f: Change, es: seq<Event>)
    requires KeepsKeys(f)
    ensures InOrder(MapSeq(f, es)) == MapSeq(f, InOrder(es))
  {
    assert forall e :: SequenceKey(f(e)).0 == EventKey(f(e)).1 == EventKey(e).1;
    SortMap(f, SequenceKey, SequenceKey, es);
  }

  lemma SlotNatural(f: Change, es: seq<Event>, g: nat, kind: EventType)
    requires KeepsKeys(f)
    ensures Slot(InOrder(MapSeq(f, es)), g, kind) == MapSeq(f, Slot(InOrder(es), g, kind))
  {
    var s := InOrder(es);
    InOrderNatural(f, es);
    assert forall e :: CorrOf(f(e)) == KindOf(f(e)).0 == KindOf(e).0;
    KeysMap(f, CorrOf, CorrOf, s);
    if g < |Keys(CorrOf, s)| {
      SelectMap(f, KindOf, KindOf, s, (Keys(CorrOf, s)[g], kind));
    }
  }

  lemma PartnerNatural(f: Change, es: seq<Event>, sig: Signature)
    requires KeepsKeys(f)
    ensures Partner(InOrder(MapSeq(f, es)), sig) == MapOption(f, Partner(InOrder(es), sig))
  {
    SlotNatural(f, es, sig.group, sig.kind);
  }

  lemma {:induction false} LinkUpToNatural(f: Change, so: seq<Event>, replayed: seq<Event>, n: nat)
    requires KeepsKeys(f) && n <= |so| && forall e :: f(e).eventId == e.eventId
    ensures LinkUpTo(so, InOrder(MapSeq(f, replayed)), n) == LinkUpTo(so, InOrder(replayed), n)
  {
    if n > 0 {
      LinkUpToNatural(f, so, replayed, n - 1);
      PartnerNatural(f, replayed, SigAt(so, n - 1));
    }
  }

  /** Linking sees ids and positions only: a change of the replay that keeps both keeps the links. */
  lemma LinksNatural(f: Change, original: seq<Event>, replayed: seq<Event>)
    requires KeepsKeys(f) && forall e :: f(e).eventId == e.eventId
    ensures Links(original, MapSeq(f, replayed)) == Links(original, replayed)
  {
    LinkUpToNatural(f, InOrder(original), replayed, |original|);
  }

  // ---------------------------------------------------------------- redaction

  lemma RedactNatural(es: seq<Event>)
    ensures Natural(Redact, p => p, es)
  {
  }

  /** Redacting before or after correlation makes no difference, nor does it to the links. */
  lemma RedactionCommutes(original: seq<Event>, es: seq<Event>)
    ensures Correlated(MapSeq(Redact, es)) == MapSeq(Redact, Correlated(es))
    ensures Links(original, Correlated(MapSeq(Redact, es))) == Links(original, Correlated(es))
  {
    RedactNatural(es);
    CorrelateNatural(Redact, p => p, es);
    LinksNatural(Redact, original, Correlated(es));
  }
}
