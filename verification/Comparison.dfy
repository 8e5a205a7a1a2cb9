/** infrareplay/comparison/engine.py: walk an original recording against its replay. */
module Comparison {
  import opened Sequences
  import opened Events
  import opened Comparators

  // ------------------------------------------------------------ specification

  function ById(replayed: seq<Event>): map<string, Event> {
    Dict(MapSeq(IdOf, replayed), replayed)
  }

  function ReplayId(replayed: seq<Event>): string {
    if |replayed| > 0 then replayed[0].recordingId else ""
  }

  /** `replay_by_id.get(links.get(id))`, where an empty link counts as none. */
  function Lookup(links: map<string, string>, byId: map<string, Event>, id: string): Option<Event> {
    if id in links && links[id] != "" && links[id] in byId then Some(byId[links[id]]) else None
  }

  function MissingRow(replayId: string, src: Event): ComparisonResult {
    ComparisonResult(replayId, Some(src.eventId), None, src.kind, MISSING, map[])
  }

  function NewRow(replayId: string, e: Event): ComparisonResult {
    ComparisonResult(replayId, None, Some(e.eventId), e.kind, NEW, map[])
  }

  function RowFor(ignore: set<string>, replayId: string, links: map<string, string>, byId: map<string, Event>, src: Event): ComparisonResult {
    match Lookup(links, byId, src.eventId)
    case None => MissingRow(replayId, src)
    case Some(r) => Verdict(ignore, src, r)
  }

  function OriginalRows(ignore: set<string>, original: seq<Event>, replayId: string, links: map<string, string>, byId: map<string, Event>): seq<ComparisonResult> {
    if |original| == 0 then []
    else
      var src := original[|original| - 1];
      var rest := OriginalRows(ignore, original[..|original| - 1], replayId, links, byId);
      if Comparable(src.kind) then rest + [RowFor(ignore, replayId, links, byId, src)] else rest
  }

  function Consumed(original: seq<Event>, links: map<string, string>, byId: map<string, Event>): set<string> {
    if |original| == 0 then {}
    else
      var src := original[|original| - 1];
      var rest := Consumed(original[..|original| - 1], links, byId);
      match Lookup(links, byId, src.eventId)
      case Some(r) => if Comparable(src.kind) then rest + {r.eventId} else rest
      case None => rest
  }

  function NewRows(replayed: seq<Event>, consumed: set<string>, replayId: string): seq<ComparisonResult> {
    if |replayed| == 0 then []
    else
      var e := replayed[|replayed| - 1];
      var rest := NewRows(replayed[..|replayed| - 1], consumed, replayId);
      if e.eventId !in consumed && Comparable(e.kind) then rest + [NewRow(replayId, e)] else rest
  }

  function Rows(ignore: set<string>, original: seq<Event>, replayed: seq<Event>, links: map<string, string>): seq<ComparisonResult> {
    var byId := ById(replayed);
    OriginalRows(ignore, original, ReplayId(replayed), links, byId)
    + NewRows(replayed, Consumed(original, links, byId), ReplayId(replayed))
  }

  // ------------------------------------------------------------ implementation

  method Compare(ignore: set<string>, src: Event, replay: Event) returns (result: ComparisonResult)
    requires Comparable(src.kind)
    ensures result == Verdict(ignore, src, replay)
  {
    if src.kind.HttpResponse? {
      result := HttpCompare(ignore, src, replay);
    } else {
      result := PgCompare(ignore, src, replay);
    }
  }

  method CompareRun(ignore: set<string>, original: seq<Event>, replayed: seq<Event>, links: map<string, string>)
    returns (results: seq<ComparisonResult>)
    ensures results == Rows(ignore, original, replayed, links)
  {
    var replayById := Dict(MapSeq(IdOf, replayed), replayed);
    var replayId := ReplayId(replayed);
    var consumed: set<string> := {};
    results := [];
    for i := 0 to |original|
      invariant results == OriginalRows(ignore, original[..i], replayId, links, replayById)
      invariant consumed == Consumed(original[..i], links, replayById)
    {
      var src := original[i];
      assert original[..i + 1][..i] == original[..i];
      if !Comparable(src.kind) {
        continue;
      }
      var replayEvent := Lookup(links, replayById, src.eventId);
      if replayEvent.None? {
        results := results + [MissingRow(replayId, src)];
        continue;
      }
      consumed := consumed + {replayEvent.value.eventId};
      var row := Compare(ignore, src, replayEvent.value);
      results := results + [row];
    }
    assert original[..|original|] == original;
    ghost var first := results;
    for i := 0 to |replayed|
      invariant results == first + NewRows(replayed[..i], consumed, replayId)
    {
      var event := replayed[i];
      assert replayed[..i + 1][..i] == replayed[..i];
      if event.eventId in consumed {
        continue;
      }
      if !Comparable(event.kind) {
        continue;
      }
      results := results + [NewRow(replayId, event)];
    }
    assert replayed[..|replayed|] == replayed;
  }
}
