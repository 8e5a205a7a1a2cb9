/** infrareplay/replay/linking.py: pair two streams by position inside the groups of their
    correlation ids. */
module Linking {
  import opened Sequences
  import opened Events

  datatype Signature = Signature(group: nat, kind: EventType, occurrence: nat)

  // ------------------------------------------------------------ specification

  function InOrder(es: seq<Event>): seq<Event> {
    SortBy(SequenceKey, es)
  }

  /** The N-th event of its type inside the request group with that index. */
  function SigAt(s: seq<Event>, i: nat): Signature
    requires i < |s|
  {
    KeysContain(CorrOf, s, s[i]);
    Signature(
      IndexOf(Keys(CorrOf, s), CorrOf(s[i])),
      s[i].kind,
      |Select(KindOf, s[..i], KindOf(s[i]))|)
  }

  /** The events of one type in the `g`-th request group of `s`, in order. */
  function Slot(s: seq<Event>, g: nat, kind: EventType): seq<Event> {
    if g < |Keys(CorrOf, s)| then Select(KindOf, s, (Keys(CorrOf, s)[g], kind)) else []
  }

  /** The event of `s` that sits where `sig` points. */
  function Partner(s: seq<Event>, sig: Signature): Option<Event> {
    var slot := Slot(s, sig.group, sig.kind);
    if sig.occurrence < |slot| then Some(slot[sig.occurrence]) else None
  }

  function LinkUpTo(so: seq<Event>, sr: seq<Event>, n: nat): map<string, string>
    requires n <= |so|
  {
    if n == 0 then map[]
    else
      var links := LinkUpTo(so, sr, n - 1);
      match Partner(sr, SigAt(so, n - 1))
      case None => links
      case Some(partner) => links[so[n - 1].eventId := partner.eventId]
  }

  /** Original event id -> replayed event id. */
  function Links(original: seq<Event>, replayed: seq<Event>): map<string, string> {
    LinkUpTo(InOrder(original), InOrder(replayed), |original|)
  }

  // -------------------------------------------------- signatures name positions

  lemma SigInSlot(s: seq<Event>, i: nat)
    requires i < |s|
    ensures SigAt(s, i).group < |Keys(CorrOf, s)|
    ensures Partner(s, SigAt(s, i)) == Some(s[i])
  {
    SelectAt(KindOf, s, i);
  }

  lemma SlotHasSig(s: seq<Event>, sig: Signature) returns (i: nat)
    requires Partner(s, sig).Some?
    ensures i < |s| && SigAt(s, i) == sig && s[i] == Partner(s, sig).value
  {
    var c := Keys(CorrOf, s)[sig.group];
    i := SelectIndex(KindOf, s, (c, sig.kind), sig.occurrence);
    KeysDistinct(CorrOf, s);
    IndexOfUnique(Keys(CorrOf, s), sig.group);
  }

  lemma SigInjective(s: seq<Event>, i: nat, j: nat)
    requires i < j < |s|
    ensures SigAt(s, i) != SigAt(s, j)
  {
    SigInSlot(s, i);
    SigInSlot(s, j);
    if KindOf(s[i]) == KindOf(s[j]) {
      SelectMonotone(KindOf, s, KindOf(s[i]), i, j);
    }
  }

  lemma SigPrefix(s: seq<Event>, i: nat, n: nat)
    requires i < n <= |s|
    ensures SigAt(s[..n], i) == SigAt(s, i)
  {
    assert s == s[..n] + s[n..];
    assert s[..n][..i] == s[..i];
    KeysPrefix(CorrOf, s[..n], s[n..]);
    KeysContain(CorrOf, s[..n], s[..n][i]);
    IndexOfPrefix(Keys(CorrOf, s[..n]), Keys(CorrOf, s), CorrOf(s[i]));
  }

  // ----------------------------------------------------- the two counting dicts

  /** `group_index` and `seen` while the stream is scanned. */
  datatype Tally = Tally(groupIndex: map<string, nat>, seen: map<(nat, EventType), nat>) {
    /** `group_index.setdefault(c, len(group_index))`. */
    function Index(c: string): map<string, nat> {
      if c in groupIndex then groupIndex else groupIndex[c := |groupIndex|]
    }

    /** `seen.get(key, 0)`. */
    function Seen(group: nat, kind: EventType): nat {
      if (group, kind) in seen then seen[(group, kind)] else 0
    }

    function Sign(event: Event): Signature {
      var group := Index(event.correlationId)[event.correlationId];
      Signature(group, event.kind, Seen(group, event.kind))
    }

    function Count(event: Event): Tally {
      var sig := Sign(event);
      Tally(Index(event.correlationId), seen[(sig.group, sig.kind) := sig.occurrence + 1])
    }
  }

  function TallyOf(s: seq<Event>): Tally {
    if |s| == 0 then Tally(map[], map[])
    else TallyOf(s[..|s| - 1]).Count(s[|s| - 1])
  }

  /** The dicts agree with the correlation ids `ks` and the events `s` scanned so far. */
  ghost predicate Indexed(ks: seq<string>, groupIndex: map<string, nat>) {
    && |groupIndex| == |ks|
    && (forall c :: c in groupIndex <==> c in ks)
    && (forall c :: c in groupIndex ==> groupIndex[c] == IndexOf(ks, c))
  }

  ghost predicate Counted(s: seq<Event>, ks: seq<string>, t: Tally) {
    && (forall key :: key in t.seen ==> key.0 < |ks|)
    && (forall g, kind :: 0 <= g < |ks| ==> t.Seen(g, kind) == |Select(KindOf, s, (ks[g], kind))|)
  }

  lemma IndexedStep(ks: seq<string>, t: Tally, c: string)
    requires Indexed(ks, t.groupIndex)
    ensures Indexed(if c in ks then ks else ks + [c], t.Index(c))
  {
    if c !in ks {
      var index := t.Index(c);
      assert index == t.groupIndex[c := |ks|];
      forall d | d in index ensures d in ks + [c] && index[d] == IndexOf(ks + [c], d) {
        if d == c {
          IndexOfLast(ks, c);
        } else {
          IndexOfPrefix(ks, ks + [c], d);
        }
      }
    }
  }

  lemma CountedStep(s: seq<Event>, ks: seq<string>, t: Tally, event: Event, group: nat)
    requires Counted(s, ks, t) && NoDuplicates(ks)
    requires group < |ks| && ks[group] == event.correlationId
    ensures Counted(s + [event], ks, t.(seen := t.seen[(group, event.kind) := t.Seen(group, event.kind) + 1]))
  {
    forall g, kind | 0 <= g < |ks|
      ensures |Select(KindOf, s + [event], (ks[g], kind))|
           == |Select(KindOf, s, (ks[g], kind))| + if g == group && kind == event.kind then 1 else 0
    {
      SelectAppend(KindOf, s, event, (ks[g], kind));
    }
  }

  lemma NewGroupUncounted(s: seq<Event>, ks: seq<string>, c: string, t: Tally)
    requires ks == Keys(CorrOf, s) && c !in ks
    requires Counted(s, ks, t)
    ensures Counted(s, ks + [c], t)
  {
    forall kind ensures Select(KindOf, s, (c, kind)) == [] {
      forall x | x in s ensures KindOf(x) != (c, kind) {
        KeysContain(CorrOf, s, x);
      }
      SelectNone(KindOf, s, (c, kind));
    }
  }

  /** Both dicts are right about the events `s` scanned so far. */
  ghost predicate Right(s: seq<Event>, t: Tally) {
    Indexed(Keys(CorrOf, s), t.groupIndex) && Counted(s, Keys(CorrOf, s), t)
  }

  lemma {:induction false} TallyRight(s: seq<Event>)
    ensures Right(s, TallyOf(s))
  {
    if |s| > 0 {
      var init, event := s[..|s| - 1], s[|s| - 1];
      assert s == init + [event];
      TallyRight(init);
      TallyStep(init, event, TallyOf(init));
    }
  }

  lemma KeysStep(s: seq<Event>, event: Event)
    ensures Keys(CorrOf, s + [event])
         == if event.correlationId in Keys(CorrOf, s) then Keys(CorrOf, s) else Keys(CorrOf, s) + [event.correlationId]
    ensures NoDuplicates(Keys(CorrOf, s + [event]))
  {
    assert (s + [event])[..|s|] == s;
    KeysDistinct(CorrOf, s + [event]);
  }

  lemma SignOf(s: seq<Event>, event: Event, t: Tally, ks: seq<string>)
    requires event.correlationId in ks && Indexed(ks, t.Index(event.correlationId)) && Counted(s, ks, t)
    ensures t.Sign(event) == Signature(IndexOf(ks, event.correlationId), event.kind, |Select(KindOf, s, KindOf(event))|)
    ensures t.Sign(event).occurrence == t.Seen(IndexOf(ks, event.correlationId), event.kind)
  {
    var group := IndexOf(ks, event.correlationId);
    assert t.Seen(group, event.kind) == |Select(KindOf, s, (ks[group], event.kind))|;
  }

  lemma SignStep(s: seq<Event>, event: Event, t: Tally, ks: seq<string>)
    requires event.correlationId in ks && NoDuplicates(ks)
    requires Indexed(ks, t.Index(event.correlationId)) && Counted(s, ks, t)
    ensures Counted(s + [event], ks, t.Count(event))
  {
    var group := IndexOf(ks, event.correlationId);
    SignOf(s, event, t, ks);
    CountedStep(s, ks, t, event, group);
    var counted := t.(seen := t.seen[(group, event.kind) := t.Seen(group, event.kind) + 1]);
    assert t.Count(event).seen == counted.seen;
    assert forall g, kind :: t.Count(event).Seen(g, kind) == counted.Seen(g, kind);
  }

  lemma SigLast(s: seq<Event>, event: Event)
    requires event.correlationId in Keys(CorrOf, s + [event])
    ensures SigAt(s + [event], |s|)
         == Signature(IndexOf(Keys(CorrOf, s + [event]), event.correlationId), event.kind, |Select(KindOf, s, KindOf(event))|)
  {
    assert (s + [event])[..|s|] == s;
  }

  lemma TallyStep(s: seq<Event>, event: Event, t: Tally)
    requires Right(s, t)
    ensures Right(s + [event], t.Count(event))
    ensures t.Sign(event) == SigAt(s + [event], |s|)
  {
    var c, ks := event.correlationId, Keys(CorrOf, s);
    KeysStep(s, event);
    IndexedStep(ks, t, c);
    if c !in ks {
      NewGroupUncounted(s, ks, c, t);
    }
    SignOf(s, event, t, Keys(CorrOf, s + [event]));
    SignStep(s, event, t, Keys(CorrOf, s + [event]));
    SigLast(s, event);
  }

  function SigList(s: seq<Event>): seq<Signature> {
    seq(|s|, i requires 0 <= i < |s| => SigAt(s, i))
  }

  lemma SigListDistinct(s: seq<Event>)
    ensures NoDuplicates(SigList(s))
  {
    forall i, j | 0 <= i < j < |s| ensures SigList(s)[i] != SigList(s)[j] {
      SigInjective(s, i, j);
    }
  }

  /** `signatures` of the sorted stream `s`. */
  function SigDict(s: seq<Event>): map<Signature, string> {
    Dict(SigList(s), MapSeq(IdOf, s))
  }

  lemma SigDictIsPartner(s: seq<Event>, sig: Signature)
    ensures sig in SigDict(s) <==> Partner(s, sig).Some?
    ensures sig in SigDict(s) ==> SigDict(s)[sig] == Partner(s, sig).value.eventId
  {
    SigListDistinct(s);
    if Partner(s, sig).Some? {
      var i := SlotHasSig(s, sig);
      assert SigList(s)[i] == sig;
    }
    if sig in SigDict(s) {
      var i :| 0 <= i < |s| && SigList(s)[i] == sig;
      SigInSlot(s, i);
      DictAt(SigList(s), MapSeq(IdOf, s), i);
    }
  }

  lemma TallySigns(s: seq<Event>, event: Event)
    ensures TallyOf(s).Sign(event) == SigAt(s + [event], |s|)
  {
    TallyRight(s);
    TallyStep(s, event, TallyOf(s));
  }

  lemma SignRight(s: seq<Event>, i: nat)
    requires i < |s|
    ensures TallyOf(s[..i]).Sign(s[i]) == SigAt(s, i)
    ensures TallyOf(s[..i]).Count(s[i]) == TallyOf(s[..i + 1])
  {
    var before := s[..i];
    assert before + [s[i]] == s[..i + 1] && s[..i + 1][..i] == before;
    SigPrefix(s, i, i + 1);
    TallySigns(before, s[i]);
  }

  // ------------------------------------------------------------ implementation

  /** One turn of the scan: `setdefault` on the group index, count, sign. */
  method ScanEvent(groupIndex: map<string, nat>, seen: map<(nat, EventType), nat>, event: Event)
    returns (signature: Signature, newIndex: map<string, nat>, newSeen: map<(nat, EventType), nat>)
    ensures signature == Tally(groupIndex, seen).Sign(event)
    ensures Tally(newIndex, newSeen) == Tally(groupIndex, seen).Count(event)
  {
    newIndex := groupIndex;
    if event.correlationId !in newIndex {
      newIndex := newIndex[event.correlationId := |newIndex|];
    }
    var group := newIndex[event.correlationId];
    var occurrence := if (group, event.kind) in seen then seen[(group, event.kind)] else 0;
    newSeen := seen[(group, event.kind) := occurrence + 1];
    signature := Signature(group, event.kind, occurrence);
  }

  /** The signatures a scan hands out. */
  function SignAll(s: seq<Event>): seq<Signature> {
    if |s| == 0 then []
    else SignAll(s[..|s| - 1]) + [TallyOf(s[..|s| - 1]).Sign(s[|s| - 1])]
  }

  lemma {:induction false} SignAllLength(s: seq<Event>)
    ensures |SignAll(s)| == |s|
  {
    if |s| > 0 {
      SignAllLength(s[..|s| - 1]);
    }
  }

  lemma {:induction false} SignAllAt(s: seq<Event>, i: nat)
    requires i < |s| && |SignAll(s)| == |s|
    ensures SignAll(s)[i] == TallyOf(s[..i]).Sign(s[i])
  {
    var n := |s| - 1;
    if i < n {
      SignAllAt(s[..n], i);
      assert s[..n][..i] == s[..i];
    }
  }

  /** ... are the positions of the events. */
  lemma ScanSignsPositions(s: seq<Event>)
    ensures SignAll(s) == SigList(s)
  {
    SignAllLength(s);
    forall i | 0 <= i < |s| ensures SignAll(s)[i] == SigList(s)[i] {
      SignAllAt(s, i);
      SignRight(s, i);
    }
  }

  /** The signatures of the sorted stream, in order: the keys of the dict. */
  method SignatureOrder(sorted: seq<Event>) returns (order: seq<Signature>)
    ensures order == SignAll(sorted)
  {
    var groupIndex: map<string, nat> := map[];
    var seen: map<(nat, EventType), nat> := map[];
    order := [];
    for i := 0 to |sorted|
      invariant Tally(groupIndex, seen) == TallyOf(sorted[..i])
      invariant order == SignAll(sorted[..i])
    {
      assert sorted[..i + 1][..i] == sorted[..i];
      var signature;
      signature, groupIndex, seen := ScanEvent(groupIndex, seen, sorted[i]);
      order := order + [signature];
    }
    assert sorted[..|sorted|] == sorted;
  }

  /** The dict of signatures: its keys in insertion order, and its entries. */
  method Signatures(events: seq<Event>) returns (order: seq<Signature>, ids: map<Signature, string>)
    ensures order == SigList(InOrder(events))
    ensures ids == SigDict(InOrder(events))
  {
    var sorted := SortBy(SequenceKey, events);
    order := SignatureOrder(sorted);
    ScanSignsPositions(sorted);
    ids := Dict(order, MapSeq(IdOf, sorted));
  }

  lemma SigListed(so: seq<Event>, i: nat)
    requires i < |so|
    ensures SigAt(so, i) in SigDict(so) && SigDict(so)[SigAt(so, i)] == so[i].eventId
  {
    SigInSlot(so, i);
    SigDictIsPartner(so, SigAt(so, i));
  }

  /** One pair of `links`: the signature's replayed id, if it has one. */
  function LinkOne(links: map<string, string>, ids: map<Signature, string>, bySig: map<Signature, string>, sig: Signature): map<string, string> {
    if sig in bySig && sig in ids then links[ids[sig] := bySig[sig]] else links
  }

  lemma LinkStep(so: seq<Event>, sr: seq<Event>, i: nat)
    requires i < |so|
    ensures SigAt(so, i) in SigDict(so)
    ensures LinkUpTo(so, sr, i + 1) == LinkOne(LinkUpTo(so, sr, i), SigDict(so), SigDict(sr), SigAt(so, i))
  {
    SigListed(so, i);
    SigDictIsPartner(sr, SigAt(so, i));
    assert LinkUpTo(so, sr, i + 1) == match Partner(sr, SigAt(so, i))
      case None => LinkUpTo(so, sr, i)
      case Some(partner) => LinkUpTo(so, sr, i)[so[i].eventId := partner.eventId];
  }

  /** `links` after the first `n` signatures. */
  function LinkFold(order: seq<Signature>, ids: map<Signature, string>, bySig: map<Signature, string>, n: nat): map<string, string>
    requires n <= |order|
  {
    if n == 0 then map[] else LinkOne(LinkFold(order, ids, bySig, n - 1), ids, bySig, order[n - 1])
  }

  lemma {:induction false} FoldLinks(so: seq<Event>, sr: seq<Event>, n: nat)
    requires n <= |so|
    ensures LinkFold(SigList(so), SigDict(so), SigDict(sr), n) == LinkUpTo(so, sr, n)
  {
    if n > 0 {
      var order, ids, bySig := SigList(so), SigDict(so), SigDict(sr);
      FoldLinks(so, sr, n - 1);
      assert LinkFold(order, ids, bySig, n) == LinkOne(LinkFold(order, ids, bySig, n - 1), ids, bySig, order[n - 1]);
      assert order[n - 1] == SigAt(so, n - 1);
      LinkStep(so, sr, n - 1);
    }
  }

  method LinkSignatures(order: seq<Signature>, ids: map<Signature, string>, bySig: map<Signature, string>) returns (links: map<string, string>)
    requires forall i :: 0 <= i < |order| ==> order[i] in ids
    ensures links == LinkFold(order, ids, bySig, |order|)
  {
    links := map[];
    for i := 0 to |order|
      invariant links == LinkFold(order, ids, bySig, i)
    {
      var signature := order[i];
      if signature in bySig {
        links := links[ids[signature] := bySig[signature]];
      }
    }
  }

  method LinkStreams(original: seq<Event>, replayed: seq<Event>) returns (links: map<string, string>)
    ensures links == Links(original, replayed)
  {
    var _, replayBySig := Signatures(replayed);
    var order, ids := Signatures(original);
    forall i | 0 <= i < |order| ensures order[i] in ids {
      SigListed(InOrder(original), i);
    }
    links := LinkSignatures(order, ids, replayBySig);
    FoldLinks(InOrder(original), InOrder(replayed), |original|);
  }
}
