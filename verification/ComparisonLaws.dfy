/** What linking and comparing promise: every event accounted for, all MATCH means equal. */
module ComparisonLaws {
  import opened Sequences
  import opened Events
  import opened Linking
  import opened LinkingLaws
  import opened Comparators
  import opened Comparison

  /** The report of a replay: link by position, then compare. */
  function Report(ignore: set<string>, original: seq<Event>, replayed: seq<Event>): seq<ComparisonResult> {
    Rows(ignore, original, replayed, Links(original, replayed))
  }

  function OriginalIds(rows: seq<ComparisonResult>): seq<string> {
    if |rows| == 0 then []
    else
      var row := rows[|rows| - 1];
      var rest := OriginalIds(rows[..|rows| - 1]);
      if row.originalId.Some? then rest + [row.originalId.value] else rest
  }

  function ReplayedIds(rows: seq<ComparisonResult>): seq<string> {
    if |rows| == 0 then []
    else
      var row := rows[|rows| - 1];
      var rest := ReplayedIds(rows[..|rows| - 1]);
      if row.replayedId.Some? then rest + [row.replayedId.value] else rest
  }

  /** The ids of the events that have a comparator, in order. */
  function ComparableIds(es: seq<Event>): seq<string> {
    if |es| == 0 then []
    else
      var e := es[|es| - 1];
      var rest := ComparableIds(es[..|es| - 1]);
      if Comparable(e.kind) then rest + [e.eventId] else rest
  }

  function CategoryCount(rows: seq<ComparisonResult>, category: Category): nat {
    if |rows| == 0 then 0
    else CategoryCount(rows[..|rows| - 1], category) + if rows[|rows| - 1].category == category then 1 else 0
  }

  lemma {:induction false} IdsConcat(a: seq<ComparisonResult>, b: seq<ComparisonResult>)
    ensures ReplayedIds(a + b) == ReplayedIds(a) + ReplayedIds(b)
    ensures OriginalIds(a + b) == OriginalIds(a) + OriginalIds(b)
  {
    if |b| == 0 {
      assert a + b == a;
    } else {
      assert (a + b)[..|a + b| - 1] == a + b[..|b| - 1];
      IdsConcat(a, b[..|b| - 1]);
    }
  }

  lemma IdsAppend(rows: seq<ComparisonResult>, row: ComparisonResult)
    ensures OriginalIds(rows + [row])
         == if row.originalId.Some? then OriginalIds(rows) + [row.originalId.value] else OriginalIds(rows)
    ensures ReplayedIds(rows + [row])
         == if row.replayedId.Some? then ReplayedIds(rows) + [row.replayedId.value] else ReplayedIds(rows)
  {
    assert (rows + [row])[..|rows|] == rows;
  }

  lemma {:induction false} ComparableIdsContain(es: seq<Event>, id: string)
    ensures id in ComparableIds(es) <==> exists e :: e in es && e.eventId == id && Comparable(e.kind)
  {
    if |es| > 0 {
      var init, last := es[..|es| - 1], es[|es| - 1];
      ComparableIdsContain(init, id);
      assert forall e :: e in es <==> e in init || e == last;
    }
  }

  lemma {:induction false} ComparableIdsDistinct(es: seq<Event>)
    requires UniqueIds(es)
    ensures NoDuplicates(ComparableIds(es))
  {
    if |es| > 0 {
      ComparableIdsDistinct(es[..|es| - 1]);
      ComparableIdsContain(es[..|es| - 1], es[|es| - 1].eventId);
    }
  }

  // -------------------------------------------------------------- looking up

  lemma ByIdFinds(replayed: seq<Event>, r: Event)
    requires UniqueIds(replayed) && r in replayed
    ensures r.eventId in ById(replayed) && ById(replayed)[r.eventId] == r
  {
    var i :| 0 <= i < |replayed| && replayed[i] == r;
    assert MapSeq(IdOf, replayed)[i] == r.eventId;
    assert NoDuplicates(MapSeq(IdOf, replayed));
    DictAt(MapSeq(IdOf, replayed), replayed, i);
  }

  /** The event an original is compared with is the one at its position in the replay. */
  lemma LookupIsPartner(original: seq<Event>, replayed: seq<Event>, sig: Signature, src: Event)
    requires RealIds(original) && RealIds(replayed)
    requires Partner(InOrder(original), sig) == Some(src)
    ensures Lookup(Links(original, replayed), ById(replayed), src.eventId) == Partner(InOrder(replayed), sig)
  {
    LinksZip(original, replayed, sig.group, sig.kind, sig.occurrence);
    if Partner(InOrder(replayed), sig).Some? {
      var j := SlotHasSig(InOrder(replayed), sig);
      InOrderMembers(replayed);
      assert InOrder(replayed)[j] in InOrder(replayed);
      ByIdFinds(replayed, Partner(InOrder(replayed), sig).value);
    }
  }

  lemma PositionOf(es: seq<Event>, e: Event) returns (sig: Signature)
    requires e in es
    ensures Partner(InOrder(es), sig) == Some(e) && sig.kind == e.kind
  {
    InOrderMembers(es);
    var i :| 0 <= i < |InOrder(es)| && InOrder(es)[i] == e;
    sig := SigAt(InOrder(es), i);
    SigInSlot(InOrder(es), i);
  }

  lemma PartnerIn(es: seq<Event>, sig: Signature)
    requires Partner(InOrder(es), sig).Some?
    ensures Partner(InOrder(es), sig).value in es && Partner(InOrder(es), sig).value.kind == sig.kind
  {
    var j := SlotHasSig(InOrder(es), sig);
    InOrderMembers(es);
    assert InOrder(es)[j] in InOrder(es);
  }

  /** A looked-up event is a replayed event of the same type, and no two originals share it. */
  lemma LookupSound(original: seq<Event>, replayed: seq<Event>, src: Event)
    requires RealIds(original) && RealIds(replayed) && src in original
    ensures var found := Lookup(Links(original, replayed), ById(replayed), src.eventId);
        found.Some? ==>
          && found.value in replayed && found.value.kind == src.kind
          && src.eventId in Links(original, replayed)
          && found.value.eventId == Links(original, replayed)[src.eventId]
  {
    var sig := PositionOf(original, src);
    LookupIsPartner(original, replayed, sig, src);
    if Partner(InOrder(replayed), sig).Some? {
      PartnerIn(replayed, sig);
      Linked(original, replayed, sig, src, Partner(InOrder(replayed), sig).value);
    }
  }

  // -------------------------------------------------------------- accounting

  lemma {:induction false} OriginalsOnce(ignore: set<string>, original: seq<Event>, replayId: string, links: map<string, string>, byId: map<string, Event>)
    ensures OriginalIds(OriginalRows(ignore, original, replayId, links, byId)) == ComparableIds(original)
  {
    if |original| > 0 {
      var init, src := original[..|original| - 1], original[|original| - 1];
      OriginalsOnce(ignore, init, replayId, links, byId);
      if Comparable(src.kind) {
        IdsAppend(OriginalRows(ignore, init, replayId, links, byId), RowFor(ignore, replayId, links, byId, src));
      }
    }
  }

  lemma {:induction false} NewRowsIds(replayed: seq<Event>, consumed: set<string>, replayId: string, id: string)
    ensures OriginalIds(NewRows(replayed, consumed, replayId)) == []
    ensures id in ReplayedIds(NewRows(replayed, consumed, replayId)) <==> id in ComparableIds(replayed) && id !in consumed
  {
    if |replayed| > 0 {
      var init, e := replayed[..|replayed| - 1], replayed[|replayed| - 1];
      NewRowsIds(init, consumed, replayId, id);
      if e.eventId !in consumed && Comparable(e.kind) {
        IdsAppend(NewRows(init, consumed, replayId), NewRow(replayId, e));
      }
    }
  }

  lemma {:induction false} NewRowsDistinct(replayed: seq<Event>, consumed: set<string>, replayId: string)
    requires UniqueIds(replayed)
    ensures NoDuplicates(ReplayedIds(NewRows(replayed, consumed, replayId)))
  {
    if |replayed| > 0 {
      var init, e := replayed[..|replayed| - 1], replayed[|replayed| - 1];
      NewRowsDistinct(init, consumed, replayId);
      NewRowsIds(init, consumed, replayId, e.eventId);
      ComparableIdsContain(init, e.eventId);
      if e.eventId !in consumed && Comparable(e.kind) {
        IdsAppend(NewRows(init, consumed, replayId), NewRow(replayId, e));
      }
    }
  }

  function FirstIds(ignore: set<string>, part: seq<Event>, replayId: string, links: map<string, string>, byId: map<string, Event>): seq<string> {
    ReplayedIds(OriginalRows(ignore, part, replayId, links, byId))
  }

  lemma FirstIdsStep(ignore: set<string>, part: seq<Event>, replayId: string, links: map<string, string>, byId: map<string, Event>)
    requires |part| > 0
    ensures var init, src := part[..|part| - 1], part[|part| - 1];
        var found := Lookup(links, byId, src.eventId);
        FirstIds(ignore, part, replayId, links, byId) ==
          if Comparable(src.kind) && found.Some?
          then FirstIds(ignore, init, replayId, links, byId) + [found.value.eventId]
          else FirstIds(ignore, init, replayId, links, byId)
  {
    var init, src := part[..|part| - 1], part[|part| - 1];
    IdsAppend(OriginalRows(ignore, init, replayId, links, byId), RowFor(ignore, replayId, links, byId, src));
  }

  /** The replayed ids of the first pass are the consumed ones ... */
  lemma {:induction false} FirstIdsConsumed(ignore: set<string>, part: seq<Event>, replayId: string, links: map<string, string>, byId: map<string, Event>)
    ensures forall id :: id in FirstIds(ignore, part, replayId, links, byId) <==> id in Consumed(part, links, byId)
  {
    if |part| > 0 {
      FirstIdsConsumed(ignore, part[..|part| - 1], replayId, links, byId);
      FirstIdsStep(ignore, part, replayId, links, byId);
    }
  }

  /** ... each the partner of an original of the same type ... */
  lemma {:induction false} FirstIdSource(ignore: set<string>, original: seq<Event>, replayed: seq<Event>, part: seq<Event>, replayId: string, id: string)
    returns (src: Event)
    requires RealIds(original) && RealIds(replayed) && part <= original
    requires id in FirstIds(ignore, part, replayId, Links(original, replayed), ById(replayed))
    ensures src in part && src.eventId in Links(original, replayed) && Links(original, replayed)[src.eventId] == id
    ensures id in ComparableIds(replayed)
  {
    var links, byId := Links(original, replayed), ById(replayed);
    FirstIdsStep(ignore, part, replayId, links, byId);
    var init, last := part[..|part| - 1], part[|part| - 1];
    if id in FirstIds(ignore, init, replayId, links, byId) {
      src := FirstIdSource(ignore, original, replayed, init, replayId, id);
    } else {
      src := last;
      assert original[|part| - 1] == src;
      LookupSound(original, replayed, src);
      ComparableIdsContain(replayed, id);
    }
  }

  /** ... and each once. */
  lemma {:induction false} FirstIdsDistinct(ignore: set<string>, original: seq<Event>, replayed: seq<Event>, part: seq<Event>, replayId: string)
    requires RealIds(original) && RealIds(replayed) && part <= original
    ensures NoDuplicates(FirstIds(ignore, part, replayId, Links(original, replayed), ById(replayed)))
  {
    var links, byId := Links(original, replayed), ById(replayed);
    if |part| > 0 {
      var init, src := part[..|part| - 1], part[|part| - 1];
      FirstIdsDistinct(ignore, original, replayed, init, replayId);
      FirstIdsStep(ignore, part, replayId, links, byId);
      assert original[|part| - 1] == src;
      LookupSound(original, replayed, src);
      var found := Lookup(links, byId, src.eventId);
      if found.Some? && found.value.eventId in FirstIds(ignore, init, replayId, links, byId) {
        var other := FirstIdSource(ignore, original, replayed, init, replayId, found.value.eventId);
        PrefixUnique(original, part, other);
        LinksInjective(original, replayed, other.eventId, src.eventId);
      }
    }
  }

  lemma PrefixUnique(original: seq<Event>, part: seq<Event>, other: Event)
    requires UniqueIds(original) && part <= original && |part| > 0
    requires other in part[..|part| - 1]
    ensures other.eventId != part[|part| - 1].eventId
  {
    var i :| 0 <= i < |part| - 1 && part[i] == other;
    assert original[i] == part[i] && original[|part| - 1] == part[|part| - 1];
  }

  lemma SplitsComparable(first: seq<string>, second: seq<string>, all: seq<string>, consumed: set<string>)
    requires NoDuplicates(first) && NoDuplicates(second) && NoDuplicates(all)
    requires forall id :: id in first <==> id in consumed
    requires forall id :: id in first ==> id in all
    requires forall id :: id in second <==> id in all && id !in consumed
    ensures multiset(first + second) == multiset(all)
  {
    assert NoDuplicates(first + second) by {
      forall i, j | 0 <= i < |first| && 0 <= j < |second| ensures first[i] != second[j] {
        assert first[i] in first && second[j] in second;
      }
    }
    SameElements(first + second, all);
  }

  /** Every comparable original and every comparable replayed event is in exactly one row. */
  lemma EveryEventInOneRow(ignore: set<string>, original: seq<Event>, replayed: seq<Event>)
    requires RealIds(original) && RealIds(replayed)
    ensures OriginalIds(Report(ignore, original, replayed)) == ComparableIds(original)
    ensures multiset(ReplayedIds(Report(ignore, original, replayed))) == multiset(ComparableIds(replayed))
  {
    var links, byId, rid := Links(original, replayed), ById(replayed), ReplayId(replayed);
    var consumed := Consumed(original, links, byId);
    var first := OriginalRows(ignore, original, rid, links, byId);
    var second := NewRows(replayed, consumed, rid);
    IdsConcat(first, second);
    OriginalsOnce(ignore, original, rid, links, byId);
    NewRowsIds(replayed, consumed, rid, "");
    assert OriginalIds(first) + [] == OriginalIds(first);
    FirstIdsConsumed(ignore, original, rid, links, byId);
    FirstIdsDistinct(ignore, original, replayed, original, rid);
    forall id | id in ReplayedIds(first) ensures id in ComparableIds(replayed) {
      var src := FirstIdSource(ignore, original, replayed, original, rid, id);
    }
    NewRowsDistinct(replayed, consumed, rid);
    ComparableIdsDistinct(replayed);
    forall id ensures id in ReplayedIds(second) <==> id in ComparableIds(replayed) && id !in consumed {
      NewRowsIds(replayed, consumed, rid, id);
    }
    SplitsComparable(ReplayedIds(first), ReplayedIds(second), ComparableIds(replayed), consumed);
  }

  ghost predicate WellFormedRow(row: ComparisonResult) {
    && (row.originalId.None? <==> row.category == NEW)
    && (row.replayedId.None? <==> row.category == MISSING)
  }

  lemma {:induction false} CategoryCountIds(rows: seq<ComparisonResult>)
    requires forall row :: row in rows ==> WellFormedRow(row)
    ensures |OriginalIds(rows)| == CategoryCount(rows, MATCH) + CategoryCount(rows, DIFFERENT) + CategoryCount(rows, ERROR) + CategoryCount(rows, MISSING)
    ensures |ReplayedIds(rows)| == CategoryCount(rows, MATCH) + CategoryCount(rows, DIFFERENT) + CategoryCount(rows, ERROR) + CategoryCount(rows, NEW)
  {
    if |rows| > 0 {
      CategoryCountIds(rows[..|rows| - 1]);
      assert WellFormedRow(rows[|rows| - 1]);
    }
  }

  lemma {:induction false} OriginalRowsFrom(ignore: set<string>, original: seq<Event>, replayId: string, links: map<string, string>, byId: map<string, Event>, row: ComparisonResult)
    ensures row in OriginalRows(ignore, original, replayId, links, byId)
        <==> exists src :: src in original && Comparable(src.kind) && row == RowFor(ignore, replayId, links, byId, src)
  {
    if |original| > 0 {
      var init, last := original[..|original| - 1], original[|original| - 1];
      OriginalRowsFrom(ignore, init, replayId, links, byId, row);
      assert forall e :: e in original <==> e in init || e == last;
    }
  }

  lemma {:induction false} NewRowsFrom(replayed: seq<Event>, consumed: set<string>, replayId: string, row: ComparisonResult)
    ensures row in NewRows(replayed, consumed, replayId)
        <==> exists e :: e in replayed && Comparable(e.kind) && e.eventId !in consumed && row == NewRow(replayId, e)
  {
    if |replayed| > 0 {
      var init, last := replayed[..|replayed| - 1], replayed[|replayed| - 1];
      NewRowsFrom(init, consumed, replayId, row);
      assert forall e :: e in replayed <==> e in init || e == last;
    }
  }

  lemma RowWellFormed(ignore: set<string>, replayId: string, links: map<string, string>, byId: map<string, Event>, src: Event)
    ensures WellFormedRow(RowFor(ignore, replayId, links, byId, src))
  {
  }

  lemma RowsWellFormed(ignore: set<string>, original: seq<Event>, replayed: seq<Event>, links: map<string, string>)
    ensures forall row :: row in Rows(ignore, original, replayed, links) ==> WellFormedRow(row)
  {
    var byId, rid := ById(replayed), ReplayId(replayed);
    forall row | row in Rows(ignore, original, replayed, links) ensures WellFormedRow(row) {
      if row in OriginalRows(ignore, original, rid, links, byId) {
        OriginalRowsFrom(ignore, original, rid, links, byId, row);
        var src :| src in original && Comparable(src.kind) && row == RowFor(ignore, rid, links, byId, src);
        RowWellFormed(ignore, rid, links, byId, src);
      } else {
        NewRowsFrom(replayed, Consumed(original, links, byId), rid, row);
      }
    }
  }

  /** The per-category totals add up to the comparable events on each side. */
  lemma TotalsAddUp(ignore: set<string>, original: seq<Event>, replayed: seq<Event>)
    requires RealIds(original) && RealIds(replayed)
    ensures var rows := Report(ignore, original, replayed);
        && CategoryCount(rows, MATCH) + CategoryCount(rows, DIFFERENT) + CategoryCount(rows, ERROR) + CategoryCount(rows, MISSING) == |ComparableIds(original)|
        && CategoryCount(rows, MATCH) + CategoryCount(rows, DIFFERENT) + CategoryCount(rows, ERROR) + CategoryCount(rows, NEW) == |ComparableIds(replayed)|
  {
    EveryEventInOneRow(ignore, original, replayed);
    RowsWellFormed(ignore, original, replayed, Links(original, replayed));
    CategoryCountIds(Report(ignore, original, replayed));
    MultisetMembership(ReplayedIds(Report(ignore, original, replayed)), ComparableIds(replayed));
  }

  // ---------------------------------------------------------- position by position

  lemma RowOf(ignore: set<string>, original: seq<Event>, replayed: seq<Event>, sig: Signature, src: Event)
    requires RealIds(original) && RealIds(replayed) && Comparable(sig.kind)
    requires Partner(InOrder(original), sig) == Some(src)
    ensures match Partner(InOrder(replayed), sig)
        case None => MissingRow(ReplayId(replayed), src) in Report(ignore, original, replayed)
        case Some(r) => Verdict(ignore, src, r) in Report(ignore, original, replayed)
  {
    var links, byId := Links(original, replayed), ById(replayed);
    PartnerIn(original, sig);
    LookupIsPartner(original, replayed, sig, src);
    OriginalRowsFrom(ignore, original, ReplayId(replayed), links, byId, RowFor(ignore, ReplayId(replayed), links, byId, src));
  }

  lemma ConsumedPartner(original: seq<Event>, replayed: seq<Event>, sig: Signature, src: Event, r: Event)
    requires RealIds(original) && RealIds(replayed) && Comparable(sig.kind)
    requires Partner(InOrder(original), sig) == Some(src) && Partner(InOrder(replayed), sig) == Some(r)
    ensures r.eventId in Consumed(original, Links(original, replayed), ById(replayed))
  {
    PartnerIn(original, sig);
    LookupIsPartner(original, replayed, sig, src);
    ConsumedFrom(original, Links(original, replayed), ById(replayed), src);
  }

  lemma {:induction false} ConsumedFrom(original: seq<Event>, links: map<string, string>, byId: map<string, Event>, src: Event)
    requires src in original && Comparable(src.kind) && Lookup(links, byId, src.eventId).Some?
    ensures Lookup(links, byId, src.eventId).value.eventId in Consumed(original, links, byId)
  {
    var init, last := original[..|original| - 1], original[|original| - 1];
    if src != last {
      assert src in init;
      ConsumedFrom(init, links, byId, src);
    }
  }

  lemma ConsumedExactly(ignore: set<string>, original: seq<Event>, replayed: seq<Event>, sig: Signature, r: Event)
    requires RealIds(original) && RealIds(replayed) && Comparable(sig.kind)
    requires Partner(InOrder(replayed), sig) == Some(r)
    ensures r.eventId in Consumed(original, Links(original, replayed), ById(replayed))
        <==> Partner(InOrder(original), sig).Some?
  {
    var links, byId := Links(original, replayed), ById(replayed);
    if Partner(InOrder(original), sig).Some? {
      ConsumedPartner(original, replayed, sig, Partner(InOrder(original), sig).value, r);
    }
    if r.eventId in Consumed(original, links, byId) {
      FirstIdsConsumed(ignore, original, "", links, byId);
      var src := FirstIdSource(ignore, original, replayed, original, "", r.eventId);
      var p, a, b := LinkPair(original, replayed, src.eventId);
      InOrderMembers(replayed);
      PositionUnique(InOrder(replayed), p, sig);
    }
  }

  lemma NewRowExactly(ignore: set<string>, original: seq<Event>, replayed: seq<Event>, links: map<string, string>, r: Event)
    requires r in replayed && Comparable(r.kind)
    ensures NewRow(ReplayId(replayed), r) in Rows(ignore, original, replayed, links)
        <==> r.eventId !in Consumed(original, links, ById(replayed))
  {
    var rid := ReplayId(replayed);
    OriginalRowsFrom(ignore, original, rid, links, ById(replayed), NewRow(rid, r));
    NewRowsFrom(replayed, Consumed(original, links, ById(replayed)), rid, NewRow(rid, r));
  }

  /** A replayed event is reported NEW exactly when the original has no such position. */
  lemma NewRowOf(ignore: set<string>, original: seq<Event>, replayed: seq<Event>, sig: Signature, r: Event)
    requires RealIds(original) && RealIds(replayed) && Comparable(sig.kind)
    requires Partner(InOrder(replayed), sig) == Some(r)
    ensures NewRow(ReplayId(replayed), r) in Report(ignore, original, replayed) <==> Partner(InOrder(original), sig).None?
  {
    PartnerIn(replayed, sig);
    ConsumedExactly(ignore, original, replayed, sig, r);
    NewRowExactly(ignore, original, replayed, Links(original, replayed), r);
  }

  lemma MissingIsOriginalRow(ignore: set<string>, original: seq<Event>, replayed: seq<Event>, links: map<string, string>, row: ComparisonResult)
    requires row in Rows(ignore, original, replayed, links) && row.category == MISSING
    ensures row in OriginalRows(ignore, original, ReplayId(replayed), links, ById(replayed))
  {
    NewRowsFrom(replayed, Consumed(original, links, ById(replayed)), ReplayId(replayed), row);
  }

  lemma MissingRowSource(ignore: set<string>, original: seq<Event>, replayed: seq<Event>, links: map<string, string>, src: Event)
    requires UniqueIds(original) && src in original
    requires MissingRow(ReplayId(replayed), src) in Rows(ignore, original, replayed, links)
    ensures Lookup(links, ById(replayed), src.eventId).None?
  {
    var row := MissingRow(ReplayId(replayed), src);
    MissingIsOriginalRow(ignore, original, replayed, links, row);
    OriginalRowsFrom(ignore, original, ReplayId(replayed), links, ById(replayed), row);
    var other :| other in original && Comparable(other.kind) && row == RowFor(ignore, ReplayId(replayed), links, ById(replayed), other);
    SameId(original, src, other);
  }

  /** An original is reported MISSING exactly when the replay has no such position. */
  lemma MissingRowOf(ignore: set<string>, original: seq<Event>, replayed: seq<Event>, sig: Signature, src: Event)
    requires RealIds(original) && RealIds(replayed) && Comparable(sig.kind)
    requires Partner(InOrder(original), sig) == Some(src)
    ensures MissingRow(ReplayId(replayed), src) in Report(ignore, original, replayed) <==> Partner(InOrder(replayed), sig).None?
  {
    RowOf(ignore, original, replayed, sig, src);
    PartnerIn(original, sig);
    LookupIsPartner(original, replayed, sig, src);
    if MissingRow(ReplayId(replayed), src) in Report(ignore, original, replayed) {
      MissingRowSource(ignore, original, replayed, Links(original, replayed), src);
    }
  }

  lemma SameId(es: seq<Event>, a: Event, b: Event)
    requires UniqueIds(es) && a in es && b in es && a.eventId == b.eventId
    ensures a == b
  {
  }

  /** Inside one (group, type) with `a` originals and `b` replays, the first min(a, b)
      positions are compared, the originals from position b on are MISSING and the replays
      from position a on are NEW. */
  lemma SurplusOnOneSide(ignore: set<string>, original: seq<Event>, replayed: seq<Event>, g: nat, kind: EventType, o: nat)
    requires RealIds(original) && RealIds(replayed) && Comparable(kind)
    ensures var rows := Report(ignore, original, replayed);
        var so, sr := Slot(InOrder(original), g, kind), Slot(InOrder(replayed), g, kind);
        && (o < |so| && o < |sr| ==> Verdict(ignore, so[o], sr[o]) in rows)
        && (o < |so| ==> (MissingRow(ReplayId(replayed), so[o]) in rows <==> |sr| <= o))
        && (o < |sr| ==> (NewRow(ReplayId(replayed), sr[o]) in rows <==> |so| <= o))
  {
    var sig := Signature(g, kind, o);
    if Partner(InOrder(original), sig).Some? {
      RowOf(ignore, original, replayed, sig, Partner(InOrder(original), sig).value);
      MissingRowOf(ignore, original, replayed, sig, Partner(InOrder(original), sig).value);
    }
    if Partner(InOrder(replayed), sig).Some? {
      NewRowOf(ignore, original, replayed, sig, Partner(InOrder(replayed), sig).value);
    }
  }

  /** How many of the first `n` events of a slot are reported MISSING, and NEW. */
  function MissingCount(rows: seq<ComparisonResult>, replayId: string, slot: seq<Event>, n: nat): nat
    requires n <= |slot|
  {
    if n == 0 then 0
    else MissingCount(rows, replayId, slot, n - 1) + if MissingRow(replayId, slot[n - 1]) in rows then 1 else 0
  }

  function NewCount(rows: seq<ComparisonResult>, replayId: string, slot: seq<Event>, n: nat): nat
    requires n <= |slot|
  {
    if n == 0 then 0
    else NewCount(rows, replayId, slot, n - 1) + if NewRow(replayId, slot[n - 1]) in rows then 1 else 0
  }

  function Surplus(a: nat, b: nat): nat {
    if a > b then a - b else 0
  }

  /** When exactly the events from position `m` on are MISSING, so many are counted. */
  lemma {:induction false} MissingSurplus(rows: seq<ComparisonResult>, rid: string, slot: seq<Event>, m: nat, n: nat)
    requires n <= |slot| && forall o :: 0 <= o < |slot| ==> (MissingRow(rid, slot[o]) in rows <==> m <= o)
    ensures MissingCount(rows, rid, slot, n) == Surplus(n, m)
  {
    if n > 0 {
      MissingSurplus(rows, rid, slot, m, n - 1);
    }
  }

  lemma {:induction false} NewSurplus(rows: seq<ComparisonResult>, rid: string, slot: seq<Event>, m: nat, n: nat)
    requires n <= |slot| && forall o :: 0 <= o < |slot| ==> (NewRow(rid, slot[o]) in rows <==> m <= o)
    ensures NewCount(rows, rid, slot, n) == Surplus(n, m)
  {
    if n > 0 {
      NewSurplus(rows, rid, slot, m, n - 1);
    }
  }

  /** Per (group, type): MISSING = max(0, a - b) and NEW = max(0, b - a), never both positive. */
  lemma SurplusCounts(ignore: set<string>, original: seq<Event>, replayed: seq<Event>, g: nat, kind: EventType)
    requires RealIds(original) && RealIds(replayed) && Comparable(kind)
    ensures var rows := Report(ignore, original, replayed);
        var so, sr := Slot(InOrder(original), g, kind), Slot(InOrder(replayed), g, kind);
        && MissingCount(rows, ReplayId(replayed), so, |so|) == Surplus(|so|, |sr|)
        && NewCount(rows, ReplayId(replayed), sr, |sr|) == Surplus(|sr|, |so|)
        && (MissingCount(rows, ReplayId(replayed), so, |so|) == 0 || NewCount(rows, ReplayId(replayed), sr, |sr|) == 0)
  {
    var rows, rid := Report(ignore, original, replayed), ReplayId(replayed);
    var so, sr := Slot(InOrder(original), g, kind), Slot(InOrder(replayed), g, kind);
    forall o | 0 <= o < |so| ensures MissingRow(rid, so[o]) in rows <==> |sr| <= o {
      SurplusOnOneSide(ignore, original, replayed, g, kind, o);
    }
    forall o | 0 <= o < |sr| ensures NewRow(rid, sr[o]) in rows <==> |so| <= o {
      SurplusOnOneSide(ignore, original, replayed, g, kind, o);
    }
    MissingSurplus(rows, rid, so, |sr|, |so|);
    NewSurplus(rows, rid, sr, |so|, |sr|);
  }

  // ---------------------------------------------------------------- all MATCH

  /** Per group index and comparable type: equally many events, agreeing pairwise. */
  ghost predicate SemanticallyEqual(ignore: set<string>, original: seq<Event>, replayed: seq<Event>) {
    forall g: nat, kind :: Comparable(kind) ==> SlotsAgree(ignore, kind, Slot(InOrder(original), g, kind), Slot(InOrder(replayed), g, kind))
  }

  ghost predicate SlotsAgree(ignore: set<string>, kind: EventType, a: seq<Event>, b: seq<Event>) {
    |a| == |b| && forall i :: 0 <= i < |a| ==> Agree(ignore, kind, a[i].payload, b[i].payload)
  }

  ghost predicate AllMatch(rows: seq<ComparisonResult>) {
    forall row :: row in rows ==> row.category == MATCH
  }

  lemma MatchForcesAgreement(ignore: set<string>, original: seq<Event>, replayed: seq<Event>, g: nat, kind: EventType)
    requires RealIds(original) && RealIds(replayed) && Comparable(kind)
    requires AllMatch(Report(ignore, original, replayed))
    ensures SlotsAgree(ignore, kind, Slot(InOrder(original), g, kind), Slot(InOrder(replayed), g, kind))
  {
    var so, sr := Slot(InOrder(original), g, kind), Slot(InOrder(replayed), g, kind);
    if |so| > |sr| {
      SurplusOnOneSide(ignore, original, replayed, g, kind, |sr|);
    } else if |so| < |sr| {
      SurplusOnOneSide(ignore, original, replayed, g, kind, |so|);
    } else {
      forall i | 0 <= i < |so| ensures Agree(ignore, kind, so[i].payload, sr[i].payload) {
        SurplusOnOneSide(ignore, original, replayed, g, kind, i);
        MatchMeansAgree(ignore, so[i], sr[i]);
        PartnerIn(original, Signature(g, kind, i));
      }
    }
  }

  lemma AgreementForcesMatch(ignore: set<string>, original: seq<Event>, replayed: seq<Event>, row: ComparisonResult)
    requires RealIds(original) && RealIds(replayed)
    requires SemanticallyEqual(ignore, original, replayed)
    requires row in Report(ignore, original, replayed)
    ensures row.category == MATCH
  {
    var links, byId, rid := Links(original, replayed), ById(replayed), ReplayId(replayed);
    OriginalRowsFrom(ignore, original, rid, links, byId, row);
    NewRowsFrom(replayed, Consumed(original, links, byId), rid, row);
    if src :| src in original && Comparable(src.kind) && row == RowFor(ignore, rid, links, byId, src) {
      var sig := PositionOf(original, src);
      LookupIsPartner(original, replayed, sig, src);
      AgreeAt(ignore, original, replayed, sig);
      MatchMeansAgree(ignore, src, Partner(InOrder(replayed), sig).value);
    } else {
      var e :| e in replayed && Comparable(e.kind) && row == NewRow(rid, e);
      var sig := PositionOf(replayed, e);
      AgreeAt(ignore, original, replayed, sig);
      NewRowOf(ignore, original, replayed, sig, e);
    }
  }

  lemma AgreeAt(ignore: set<string>, original: seq<Event>, replayed: seq<Event>, sig: Signature)
    requires SemanticallyEqual(ignore, original, replayed) && Comparable(sig.kind)
    ensures Partner(InOrder(original), sig).Some? <==> Partner(InOrder(replayed), sig).Some?
    ensures Partner(InOrder(original), sig).Some? ==>
        Agree(ignore, sig.kind, Partner(InOrder(original), sig).value.payload, Partner(InOrder(replayed), sig).value.payload)
  {
    assert SlotsAgree(ignore, sig.kind, Slot(InOrder(original), sig.group, sig.kind), Slot(InOrder(replayed), sig.group, sig.kind));
  }

  /** A report is all MATCH exactly when the two recordings agree, group by group and type
      by type: nothing missing, nothing new, no error, equal normal forms throughout. */
  lemma AllMatchExactly(ignore: set<string>, original: seq<Event>, replayed: seq<Event>)
    requires RealIds(original) && RealIds(replayed)
    ensures AllMatch(Report(ignore, original, replayed)) <==> SemanticallyEqual(ignore, original, replayed)
  {
    if AllMatch(Report(ignore, original, replayed)) {
      forall g: nat, kind | Comparable(kind)
        ensures SlotsAgree(ignore, kind, Slot(InOrder(original), g, kind), Slot(InOrder(replayed), g, kind))
      {
        MatchForcesAgreement(ignore, original, replayed, g, kind);
      }
    }
    if SemanticallyEqual(ignore, original, replayed) {
      forall row | row in Report(ignore, original, replayed) ensures row.category == MATCH {
        AgreementForcesMatch(ignore, original, replayed, row);
      }
    }
  }
}
