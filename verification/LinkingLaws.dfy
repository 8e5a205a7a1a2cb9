/** What `link_streams` promises: a maximal, order-preserving, symmetric partial injection. */
module LinkingLaws {
  import opened Sequences
  import opened Events
  import opened Linking

  lemma InOrderMembers(es: seq<Event>)
    ensures multiset(InOrder(es)) == multiset(es)
    ensures forall e :: e in InOrder(es) <==> e in es
    ensures UniqueIds(es) ==> UniqueIds(InOrder(es))
  {
    SortCorrect(SequenceKey, es);
    if UniqueIds(es) {
      UniqueIdsPermutation(es, InOrder(es));
    }
  }

  lemma {:induction false} LinkSource(so: seq<Event>, sr: seq<Event>, n: nat, id: string) returns (i: nat)
    requires n <= |so| && id in LinkUpTo(so, sr, n)
    ensures i < n && so[i].eventId == id && Partner(sr, SigAt(so, i)).Some?
    ensures LinkUpTo(so, sr, n)[id] == Partner(sr, SigAt(so, i)).value.eventId
  {
    if Partner(sr, SigAt(so, n - 1)).Some? && so[n - 1].eventId == id {
      i := n - 1;
    } else {
      i := LinkSource(so, sr, n - 1, id);
    }
  }

  /** Linking a later event leaves the links of the earlier ones alone. */
  lemma LinkKept(so: seq<Event>, sr: seq<Event>, n: nat, i: nat)
    requires UniqueIds(so) && i < n - 1 < |so|
    ensures so[i].eventId in LinkUpTo(so, sr, n) <==> so[i].eventId in LinkUpTo(so, sr, n - 1)
    ensures so[i].eventId in LinkUpTo(so, sr, n) ==> LinkUpTo(so, sr, n)[so[i].eventId] == LinkUpTo(so, sr, n - 1)[so[i].eventId]
  {
    assert so[i].eventId != so[n - 1].eventId;
  }

  lemma LinkLast(so: seq<Event>, sr: seq<Event>, n: nat)
    requires UniqueIds(so) && n < |so|
    ensures so[n].eventId in LinkUpTo(so, sr, n + 1) <==> Partner(sr, SigAt(so, n)).Some?
    ensures Partner(sr, SigAt(so, n)).Some? ==>
        LinkUpTo(so, sr, n + 1)[so[n].eventId] == Partner(sr, SigAt(so, n)).value.eventId
  {
    if so[n].eventId in LinkUpTo(so, sr, n) {
      var j := LinkSource(so, sr, n, so[n].eventId);
    }
  }

  lemma {:induction false} LinkAt(so: seq<Event>, sr: seq<Event>, n: nat, i: nat)
    requires UniqueIds(so) && i < n <= |so|
    ensures so[i].eventId in LinkUpTo(so, sr, n) <==> Partner(sr, SigAt(so, i)).Some?
    ensures Partner(sr, SigAt(so, i)).Some? ==>
        LinkUpTo(so, sr, n)[so[i].eventId] == Partner(sr, SigAt(so, i)).value.eventId
  {
    if i < n - 1 {
      LinkAt(so, sr, n - 1, i);
      LinkKept(so, sr, n, i);
    } else {
      LinkLast(so, sr, i);
    }
  }

  /** Two events correspond when they sit at one position: same group, same type, same turn. */
  ghost predicate Corresponds(original: seq<Event>, replayed: seq<Event>, sig: Signature, a: Event, b: Event) {
    Partner(InOrder(original), sig) == Some(a) && Partner(InOrder(replayed), sig) == Some(b)
  }

  /** Position by position inside every (group, type), originals and replays are zipped;
      what sticks out on the longer side stays unlinked. */
  lemma LinksZip(original: seq<Event>, replayed: seq<Event>, g: nat, kind: EventType, o: nat)
    requires UniqueIds(original)
    requires o < |Slot(InOrder(original), g, kind)|
    ensures var a := Slot(InOrder(original), g, kind)[o];
        var slot := Slot(InOrder(replayed), g, kind);
        var links := Links(original, replayed);
        && (a.eventId in links <==> o < |slot|)
        && (o < |slot| ==> links[a.eventId] == slot[o].eventId)
  {
    var i := SlotHasSig(InOrder(original), Signature(g, kind, o));
    InOrderMembers(original);
    LinkAt(InOrder(original), InOrder(replayed), |original|, i);
  }

  lemma LinkPair(original: seq<Event>, replayed: seq<Event>, id: string) returns (sig: Signature, a: Event, b: Event)
    requires id in Links(original, replayed)
    ensures Corresponds(original, replayed, sig, a, b)
    ensures a.eventId == id && b.eventId == Links(original, replayed)[id]
    ensures a in original && b in replayed && a.kind == b.kind == sig.kind
  {
    var so, sr := InOrder(original), InOrder(replayed);
    var i := LinkSource(so, sr, |original|, id);
    sig, a, b := SigAt(so, i), so[i], Partner(sr, SigAt(so, i)).value;
    SigInSlot(so, i);
    var j := SlotHasSig(sr, sig);
    InOrderMembers(original);
    InOrderMembers(replayed);
    assert so[i] in so && sr[j] in sr;
  }

  /** An event sits at one position only. */
  lemma PositionUnique(s: seq<Event>, p: Signature, q: Signature)
    requires UniqueIds(s) && Partner(s, p).Some? && Partner(s, q).Some?
    requires Partner(s, p).value.eventId == Partner(s, q).value.eventId
    ensures p == q
  {
    var i := SlotHasSig(s, p);
    var j := SlotHasSig(s, q);
  }

  lemma LinksInjective(original: seq<Event>, replayed: seq<Event>, x: string, y: string)
    requires UniqueIds(original) && UniqueIds(replayed)
    requires x in Links(original, replayed) && y in Links(original, replayed)
    requires Links(original, replayed)[x] == Links(original, replayed)[y]
    ensures x == y
  {
    var p, a, b := LinkPair(original, replayed, x);
    var q, c, d := LinkPair(original, replayed, y);
    InOrderMembers(replayed);
    PositionUnique(InOrder(replayed), p, q);
  }

  lemma Linked(original: seq<Event>, replayed: seq<Event>, sig: Signature, a: Event, b: Event)
    requires UniqueIds(original) && Corresponds(original, replayed, sig, a, b)
    ensures a.eventId in Links(original, replayed) && Links(original, replayed)[a.eventId] == b.eventId
  {
    LinksZip(original, replayed, sig.group, sig.kind, sig.occurrence);
  }

  /** Linking the other way round gives the inverse relation. */
  lemma LinksInverse(original: seq<Event>, replayed: seq<Event>, x: string, y: string)
    requires UniqueIds(original) && UniqueIds(replayed)
    requires x in Links(original, replayed) && Links(original, replayed)[x] == y
    ensures y in Links(replayed, original) && Links(replayed, original)[y] == x
  {
    var sig, a, b := LinkPair(original, replayed, x);
    Linked(replayed, original, sig, b, a);
  }

  lemma LinksSelf(es: seq<Event>)
    requires UniqueIds(es)
    ensures forall e :: e in es ==> e.eventId in Links(es, es) && Links(es, es)[e.eventId] == e.eventId
    ensures forall id :: id in Links(es, es) ==> exists e :: e in es && e.eventId == id
  {
    var s := InOrder(es);
    InOrderMembers(es);
    forall e | e in es ensures e.eventId in Links(es, es) && Links(es, es)[e.eventId] == e.eventId {
      var i :| 0 <= i < |s| && s[i] == e;
      SigInSlot(s, i);
      Linked(es, es, SigAt(s, i), e, e);
    }
    forall id | id in Links(es, es) ensures exists e :: e in es && e.eventId == id {
      var sig, a, b := LinkPair(es, es, id);
    }
  }

  /** No two leftovers could still have been paired. */
  lemma LinksMaximal(original: seq<Event>, replayed: seq<Event>, g: nat, kind: EventType, o: nat, p: nat)
    requires UniqueIds(original)
    requires o < |Slot(InOrder(original), g, kind)| && p < |Slot(InOrder(replayed), g, kind)|
    requires Slot(InOrder(original), g, kind)[o].eventId !in Links(original, replayed)
    ensures Slot(InOrder(replayed), g, kind)[p].eventId in Links(original, replayed).Values
  {
    LinksZip(original, replayed, g, kind, o);
    LinksZip(original, replayed, g, kind, p);
  }

  /** With distinct sequence numbers the order of the input lists does not matter. */
  lemma LinksIgnoreInputOrder(original: seq<Event>, replayed: seq<Event>, o2: seq<Event>, r2: seq<Event>)
    requires multiset(original) == multiset(o2) && multiset(replayed) == multiset(r2)
    requires KeysDistinguish(SequenceKey, original) && KeysDistinguish(SequenceKey, replayed)
    ensures Links(original, replayed) == Links(o2, r2)
  {
    SortPermutation(SequenceKey, original, o2);
    SortPermutation(SequenceKey, replayed, r2);
    MultisetMembership(original, o2);
  }
}
