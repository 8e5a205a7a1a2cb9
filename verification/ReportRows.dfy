/** infrareplay/comparison/engine.py, row by row: what the report says, and in which order. */
module ReportRows {
  import opened Sequences
  import opened Events
  import opened Comparators
  import opened Comparison
  import opened ComparisonLaws

  /** The event types that have a comparator. */
  predicate IsOutcome(e: Event) {
    e.kind == HttpResponse || e.kind == PgResult
  }

  /** The link of `src` leads to the event with id `id`. */
  predicate LinksTo(links: map<string, string>, src: Event, id: string) {
    src.eventId in links && links[src.eventId] == id && id != ""
  }

  predicate Reached(outcomes: seq<Event>, links: map<string, string>, id: string) {
    exists i :: 0 <= i < |outcomes| && LinksTo(links, outcomes[i], id)
  }

  /** The row about `src`: the verdict on the event its link leads to, or MISSING. */
  ghost predicate RowAbout(ignore: set<string>, src: Event, replayed: seq<Event>, links: map<string, string>, row: ComparisonResult) {
    && (forall r :: r in replayed && LinksTo(links, src, r.eventId) ==>
          if src.kind == HttpResponse then HttpRow(ignore, src, r, row) else PgRow(ignore, src, r, row))
    && ((forall r :: r in replayed ==> !LinksTo(links, src, r.eventId)) ==>
          row == ComparisonResult(if |replayed| > 0 then replayed[0].recordingId else "", Some(src.eventId), None, src.kind, MISSING, map[]))
  }

  /** The row about a replayed event that no link reaches. */
  predicate NewAbout(e: Event, replayed: seq<Event>, row: ComparisonResult) {
    row == ComparisonResult(if |replayed| > 0 then replayed[0].recordingId else "", None, Some(e.eventId), e.kind, NEW, map[])
  }

  ghost predicate RowsAbout(ignore: set<string>, olds: seq<Event>, replayed: seq<Event>, links: map<string, string>, rows: seq<ComparisonResult>) {
    |rows| == |olds| && forall k :: 0 <= k < |olds| ==> RowAbout(ignore, olds[k], replayed, links, rows[k])
  }

  predicate NewRowsAbout(news: seq<Event>, replayed: seq<Event>, rows: seq<ComparisonResult>) {
    |rows| == |news| && forall k :: 0 <= k < |news| ==> NewAbout(news[k], replayed, rows[k])
  }

  function ComparedEvents(es: seq<Event>): seq<Event> {
    Select(IsOutcome, es, true)
  }

  function Unreached(original: seq<Event>, links: map<string, string>): Event -> bool {
    (e: Event) => IsOutcome(e) && !Reached(ComparedEvents(original), links, e.eventId)
  }

  lemma {:induction false} OriginalRowsInOrder(ignore: set<string>, original: seq<Event>, replayId: string, links: map<string, string>, byId: map<string, Event>)
    ensures var rows := OriginalRows(ignore, original, replayId, links, byId);
        |rows| == |ComparedEvents(original)| && forall k :: 0 <= k < |rows| ==> rows[k] == RowFor(ignore, replayId, links, byId, ComparedEvents(original)[k])
  {
    if |original| > 0 {
      OriginalRowsInOrder(ignore, original[..|original| - 1], replayId, links, byId);
    }
  }

  lemma LookupFinds(replayed: seq<Event>, links: map<string, string>, src: Event)
    requires UniqueIds(replayed)
    ensures match Lookup(links, ById(replayed), src.eventId)
        case Some(r) => r in replayed && LinksTo(links, src, r.eventId)
        case None => forall r :: r in replayed ==> !LinksTo(links, src, r.eventId)
    ensures forall r :: r in replayed && LinksTo(links, src, r.eventId) ==> Lookup(links, ById(replayed), src.eventId) == Some(r)
  {
    forall r | r in replayed ensures r.eventId in ById(replayed) && ById(replayed)[r.eventId] == r {
      ByIdFinds(replayed, r);
    }
    if src.eventId in links && links[src.eventId] in ById(replayed) {
      var i :| 0 <= i < |replayed| && MapSeq(IdOf, replayed)[i] == links[src.eventId];
      assert replayed[i] in replayed;
    }
  }

  lemma RowForAbout(ignore: set<string>, replayed: seq<Event>, links: map<string, string>, src: Event)
    requires UniqueIds(replayed) && IsOutcome(src)
    ensures RowAbout(ignore, src, replayed, links, RowFor(ignore, ReplayId(replayed), links, ById(replayed), src))
  {
    LookupFinds(replayed, links, src);
    match Lookup(links, ById(replayed), src.eventId)
    case None =>
    case Some(r) =>
      if src.kind == HttpResponse {
        VerdictIsHttpRow(ignore, src, r);
      } else {
        VerdictIsPgRow(ignore, src, r);
      }
  }

  lemma ReachedMore(outcomes: seq<Event>, links: map<string, string>, src: Event, id: string)
    ensures Reached(outcomes + [src], links, id) <==> Reached(outcomes, links, id) || LinksTo(links, src, id)
  {
    if i :| 0 <= i < |outcomes| && LinksTo(links, outcomes[i], id) {
      assert (outcomes + [src])[i] == outcomes[i];
    }
    assert (outcomes + [src])[|outcomes|] == src;
  }

  lemma {:induction false} ConsumedReached(original: seq<Event>, replayed: seq<Event>, links: map<string, string>, e: Event)
    requires UniqueIds(replayed) && e in replayed
    ensures e.eventId in Consumed(original, links, ById(replayed)) <==> Reached(ComparedEvents(original), links, e.eventId)
  {
    if |original| > 0 {
      var init, src := original[..|original| - 1], original[|original| - 1];
      ConsumedReached(init, replayed, links, e);
      LookupFinds(replayed, links, src);
      ReachedMore(ComparedEvents(init), links, src, e.eventId);
    }
  }

  lemma {:induction false} NewRowsInOrder(part: seq<Event>, consumed: set<string>, replayId: string, free: Event -> bool)
    requires forall e :: e in part ==> (free(e) <==> IsOutcome(e) && e.eventId !in consumed)
    ensures var rows := NewRows(part, consumed, replayId);
        |rows| == |Select(free, part, true)| && forall k :: 0 <= k < |rows| ==> rows[k] == NewRow(replayId, Select(free, part, true)[k])
  {
    if |part| > 0 {
      NewRowsInOrder(part[..|part| - 1], consumed, replayId, free);
    }
  }

  lemma FirstRowsAbout(ignore: set<string>, original: seq<Event>, replayed: seq<Event>, links: map<string, string>)
    requires UniqueIds(replayed)
    ensures RowsAbout(ignore, ComparedEvents(original), replayed, links, OriginalRows(ignore, original, ReplayId(replayed), links, ById(replayed)))
  {
    var rows, olds := OriginalRows(ignore, original, ReplayId(replayed), links, ById(replayed)), ComparedEvents(original);
    OriginalRowsInOrder(ignore, original, ReplayId(replayed), links, ById(replayed));
    SelectMembers(IsOutcome, original, true);
    forall k | 0 <= k < |olds| ensures RowAbout(ignore, olds[k], replayed, links, rows[k]) {
      assert olds[k] in olds;
      RowForAbout(ignore, replayed, links, olds[k]);
    }
  }

  lemma LastRowsAbout(original: seq<Event>, replayed: seq<Event>, links: map<string, string>)
    requires UniqueIds(replayed)
    ensures NewRowsAbout(Select(Unreached(original, links), replayed, true), replayed,
                         NewRows(replayed, Consumed(original, links, ById(replayed)), ReplayId(replayed)))
  {
    var consumed := Consumed(original, links, ById(replayed));
    forall e | e in replayed ensures Unreached(original, links)(e) <==> IsOutcome(e) && e.eventId !in consumed {
      ConsumedReached(original, replayed, links, e);
    }
    NewRowsInOrder(replayed, consumed, ReplayId(replayed), Unreached(original, links));
  }

  /** The report in order: a row about each original reply and SQL result, in their order, then
      one about each replayed one that no link reaches, in theirs; nothing else. */
  lemma RowsInOrder(ignore: set<string>, original: seq<Event>, replayed: seq<Event>, links: map<string, string>)
    requires UniqueIds(replayed)
    ensures var rows, n := Rows(ignore, original, replayed, links), |ComparedEvents(original)|;
        && n <= |rows|
        && RowsAbout(ignore, ComparedEvents(original), replayed, links, rows[..n])
        && NewRowsAbout(Select(Unreached(original, links), replayed, true), replayed, rows[n..])
  {
    FirstRowsAbout(ignore, original, replayed, links);
    LastRowsAbout(original, replayed, links);
    var first := OriginalRows(ignore, original, ReplayId(replayed), links, ById(replayed));
    var rows := Rows(ignore, original, replayed, links);
    assert rows[..|first|] == first;
    assert rows[|first|..] == NewRows(replayed, Consumed(original, links, ById(replayed)), ReplayId(replayed));
  }
}
