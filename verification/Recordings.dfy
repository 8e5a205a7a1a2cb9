/** infrareplay/recording/service.py: the one place where recordings change state. */
module Recordings {
  import opened Sequences
  import opened Events
  import opened Correlate
  import opened CorrelateLaws
  import opened Comparators

  // The database is a table of recordings and a table of events keyed by event id.

  datatype Status = RECORDING | COMPLETED | FAILED

  datatype Meta = Meta(
    project: string, kind: string, title: string, capturePlugin: string,
    target: Option<string>, source: Option<string>)

  datatype Row = Row(meta: Meta, status: Status)

  datatype Recording = Recording(id: string, meta: Meta, status: Status, events: seq<Event>)

  // ------------------------------------------------------------ specification

  /** `select(EventRow).where(recording_id == id).order_by(sequence)`. Rows with one sequence
      number come in table order here; the database promises no order for them. */
  function EventsFor(events: seq<Event>, id: string): seq<Event> {
    SortBy(SequenceKey, Select(RecordingOf, events, id))
  }

  function PatchOne(row: Event, o: Event): Event {
    if row.eventId == o.eventId then row.(sequence := o.sequence, parent := o.parent) else row
  }

  /** A row after the outputs of `correlate` have been written back, by event id. */
  function Patch(row: Event, out: seq<Event>): Event {
    if |out| == 0 then row else PatchOne(Patch(row, out[..|out| - 1]), out[|out| - 1])
  }

  function Patcher(out: seq<Event>): Event -> Event {
    (row: Event) => Patch(row, out)
  }

  function Redacted(es: seq<Event>): seq<Event> {
    MapSeq(Redact, es)
  }

  function TerminalSteps(steps: map<string, nat>, id: string): nat {
    if id in steps then steps[id] else 0
  }

  function OneMoreStep(steps: map<string, nat>, id: string): map<string, nat> {
    steps[id := TerminalSteps(steps, id) + 1]
  }

  predicate Taken(events: seq<Event>, id: string) {
    exists i :: 0 <= i < |events| && events[i].eventId == id
  }

  // ------------------------------------------------------------ implementation

  class Store {
    var recordings: map<string, Row>
    var events: seq<Event>                   // in insertion order
    var sources: map<string, string>         // source_event_id of replayed events
    var comparisons: seq<ComparisonResult>   // in insertion order
    var terminal: map<string, nat>           // COMPLETED and FAILED steps taken per recording

    constructor ()
      ensures recordings == map[] && events == [] && sources == map[] && comparisons == [] && terminal == map[]
      ensures Valid()
    {
      recordings, events, sources, comparisons, terminal := map[], [], map[], [], map[];
    }

    /** `event_id` is the primary key of the event table. */
    ghost predicate Valid()
      reads this
    {
      UniqueIds(events)
    }

    /** False when the id is taken: the insert violates the primary key. */
    method Start(id: string, meta: Meta) returns (ok: bool)
      modifies `recordings
      ensures ok == (id !in old(recordings))
      ensures recordings == if ok then old(recordings)[id := Row(meta, RECORDING)] else old(recordings)
    {
      ok := id !in recordings;
      if ok {
        recordings := recordings[id := Row(meta, RECORDING)];
      }
    }

    /** Redact and insert, in one transaction: a clashing event id inserts nothing. */
    method Append(es: seq<Event>) returns (ok: bool, stored: seq<Event>)
      requires Valid()
      modifies `events
      ensures Valid()
      ensures ok <==> UniqueIds(old(events) + es)
      ensures ok ==> stored == Redacted(es) && events == old(events) + stored
      ensures !ok ==> stored == [] && events == old(events)
    {
      ok, stored := true, [];
      for i := 0 to |es|
        invariant stored == Redacted(es[..i])
        invariant events == old(events)
        invariant UniqueIds(events + es[..i])
      {
        TakenClashes(events, es, i);
        if Taken(events + stored, es[i].eventId) {
          return false, [];
        }
        stored := stored + [Redact(es[i])];
      }
      assert es[..|es|] == es;
      RedactKeepsIds(events, es);
      events := events + stored;
    }

    method Fail(id: string, reason: string)
      modifies `recordings, `terminal
      ensures id !in old(recordings) ==> recordings == old(recordings) && terminal == old(terminal)
      ensures id in old(recordings) ==> terminal == OneMoreStep(old(terminal), id)
      ensures id in old(recordings) ==>
          var row := old(recordings)[id];
          recordings == old(recordings)[id := Row(row.meta.(title := row.meta.title + " (failed: " + reason + ")"), FAILED)]
    {
      if id !in recordings {
        return;
      }
      var row := recordings[id];
      recordings := recordings[id := Row(row.meta.(title := row.meta.title + " (failed: " + reason + ")"), FAILED)];
      terminal := OneMoreStep(terminal, id);
    }

    /** The write-back: each output's sequence and parent go to the row with its event id. */
    method WriteBack(out: seq<Event>)
      modifies `events
      ensures events == MapSeq(Patcher(out), old(events))
    {
      assert forall row :: Patch(row, []) == row;
      for i := 0 to |out|
        invariant events == MapSeq(Patcher(out[..i]), old(events))
      {
        var o := out[i];
        events := MapSeq((row: Event) => PatchOne(row, o), events);
        forall row ensures Patch(row, out[..i + 1]) == PatchOne(Patch(row, out[..i]), o) {
          assert out[..i + 1][..i] == out[..i];
        }
      }
      assert out[..|out|] == out;
    }

    /** Correlate what was collected, write sequence and parent back, complete. */
    method Finish(id: string) returns (recording: Option<Recording>)
      requires Valid()
      modifies `recordings, `events, `terminal
      ensures Valid()
      ensures id !in old(recordings) ==>
          recording.None? && recordings == old(recordings) && events == old(events) && terminal == old(terminal)
      ensures id in old(recordings) ==> terminal == OneMoreStep(old(terminal), id)
      ensures id in old(recordings) ==>
          && recordings == old(recordings)[id := old(recordings)[id].(status := COMPLETED)]
          && recording == Some(Recording(id, old(recordings)[id].meta, COMPLETED, Correlated(EventsFor(old(events), id))))
          && EventsFor(events, id) == recording.value.events
          && events == MapSeq(Patcher(recording.value.events), old(events))
          && forall other :: other != id ==> Select(RecordingOf, events, other) == Select(RecordingOf, old(events), other)
    {
      if id !in recordings {
        return None;
      }
      var out := Correlate.Correlate(EventsFor(events, id));
      WriteBack(out);
      FinishAgrees(old(events), id);
      forall other | other != id ensures Select(RecordingOf, events, other) == Select(RecordingOf, old(events), other) {
        FinishKeepsOthers(old(events), id, other);
      }
      recordings := recordings[id := recordings[id].(status := COMPLETED)];
      terminal := OneMoreStep(terminal, id);
      recording := Some(Recording(id, recordings[id].meta, COMPLETED, out));
    }

    method Get(id: string) returns (recording: Option<Recording>)
      ensures recording == if id in recordings
                           then Some(Recording(id, recordings[id].meta, recordings[id].status, EventsFor(events, id)))
                           else None
    {
      if id !in recordings {
        return None;
      }
      recording := Some(Recording(id, recordings[id].meta, recordings[id].status, EventsFor(events, id)));
    }

    /** Record which original event each replayed event reproduces; `order` is the dict order of
        the links, and the last one to reach a row wins. */
    method LinkReplayEvents(order: seq<string>, links: map<string, string>)
      requires forall o :: o in order ==> o in links
      modifies `sources
      ensures forall i :: 0 <= i < |order| && Taken(events, links[order[i]]) && LastOne(order, links, i, |order|) ==>
          links[order[i]] in sources && sources[links[order[i]]] == order[i]
      ensures forall r :: !Taken(events, r) || (forall i :: 0 <= i < |order| ==> links[order[i]] != r) ==> SameAt(sources, old(sources), r)
    {
      for n := 0 to |order|
        invariant forall i :: 0 <= i < n && Taken(events, links[order[i]]) && LastOne(order, links, i, n) ==>
            links[order[i]] in sources && sources[links[order[i]]] == order[i]
        invariant forall r :: !Taken(events, r) || (forall i :: 0 <= i < n ==> links[order[i]] != r) ==> SameAt(sources, old(sources), r)
      {
        var original := order[n];
        if Taken(events, links[original]) {
          sources := sources[links[original] := original];
        }
      }
    }

    method SaveComparison(run: string, results: seq<ComparisonResult>)
      modifies `comparisons
      ensures comparisons == old(comparisons) + ComparisonRows(run, results)
      ensures |comparisons| == |old(comparisons)| + |results| && old(comparisons) <= comparisons
      ensures forall i :: 0 <= i < |results| ==> comparisons[|old(comparisons)| + i] == results[i].(replayRecordingId := run)
    {
      for i := 0 to |results|
        invariant comparisons == old(comparisons) + ComparisonRows(run, results[..i])
      {
        comparisons := comparisons + [results[i].(replayRecordingId := run)];
        assert ComparisonRows(run, results[..i + 1]) == ComparisonRows(run, results[..i]) + [results[i].(replayRecordingId := run)];
      }
      assert results[..|results|] == results;
    }
  }

  /** The rows are filed under the run they are saved for. */
  function ComparisonRows(run: string, results: seq<ComparisonResult>): seq<ComparisonResult> {
    MapSeq((r: ComparisonResult) => r.(replayRecordingId := run), results)
  }

  /** Of the first `n` links none after the i-th reaches the same row. */
  predicate LastOne(order: seq<string>, links: map<string, string>, i: nat, n: nat)
    requires i < n <= |order| && forall o :: o in order ==> o in links
  {
    forall j :: i < j < n ==> links[order[j]] != links[order[i]]
  }

  predicate SameAt(a: map<string, string>, b: map<string, string>, r: string) {
    (r in a <==> r in b) && (r in a ==> a[r] == b[r])
  }

  lemma TakenClashes(events: seq<Event>, es: seq<Event>, i: nat)
    requires i < |es| && UniqueIds(events + es[..i])
    ensures Taken(events + Redacted(es[..i]), es[i].eventId) ==> !UniqueIds(events + es)
    ensures !Taken(events + Redacted(es[..i]), es[i].eventId) ==> UniqueIds(events + es[..i + 1])
  {
    var all, kept, part := events + es, events + es[..i], events + Redacted(es[..i]);
    assert all[|kept|] == es[i];
    assert events + es[..i + 1] == kept + [es[i]];
    assert forall k :: 0 <= k < |part| ==> part[k].eventId == all[k].eventId == kept[k].eventId;
  }

  lemma RedactKeepsIds(events: seq<Event>, es: seq<Event>)
    requires UniqueIds(events + es)
    ensures UniqueIds(events + Redacted(es))
  {
    var a, b := events + es, events + Redacted(es);
    assert forall k :: 0 <= k < |a| ==> a[k].eventId == b[k].eventId;
  }

  // ------------------------------------------------------------ store agreement

  lemma {:induction false} PatchKeeps(row: Event, out: seq<Event>)
    ensures Erase(Patch(row, out)) == Erase(row)
  {
    if |out| > 0 {
      PatchKeeps(row, out[..|out| - 1]);
      assert Erase(Patch(row, out[..|out| - 1])).eventId == row.eventId;
    }
  }

  lemma {:induction false} PatchMiss(row: Event, out: seq<Event>)
    requires forall o :: o in out ==> o.eventId != row.eventId
    ensures Patch(row, out) == row
  {
    if |out| > 0 {
      PatchMiss(row, out[..|out| - 1]);
      assert out[|out| - 1] in out;
    }
  }

  lemma {:induction false} PatchHit(row: Event, out: seq<Event>, j: nat)
    requires UniqueIds(out) && j < |out| && Erase(out[j]) == Erase(row)
    ensures Patch(row, out) == out[j]
  {
    var n := |out| - 1;
    assert Erase(row).eventId == row.eventId && Erase(out[j]).eventId == out[j].eventId;
    if j < n {
      PatchHit(row, out[..n], j);
    } else {
      forall o | o in out[..n] ensures o.eventId != row.eventId {}
      PatchMiss(row, out[..n]);
      PatchedWhole(row, out[j]);
    }
  }

  lemma PatchedWhole(row: Event, o: Event)
    requires Erase(o) == Erase(row)
    ensures row.(sequence := o.sequence, parent := o.parent) == o
  {
    assert Erase(o).(sequence := o.sequence, parent := o.parent) == o;
    assert Erase(row).(sequence := o.sequence, parent := o.parent) == row.(sequence := o.sequence, parent := o.parent);
  }

  lemma OwnRows(events: seq<Event>, id: string)
    requires UniqueIds(events)
    ensures UniqueIds(Select(RecordingOf, events, id)) && UniqueIds(EventsFor(events, id))
    ensures multiset(EventsFor(events, id)) == multiset(Select(RecordingOf, events, id))
    ensures forall e :: e in EventsFor(events, id) <==> e in events && e.recordingId == id
  {
    var own := Select(RecordingOf, events, id);
    SelectUnique(events, id);
    SortCorrect(SequenceKey, own);
    UniqueIdsPermutation(own, EventsFor(events, id));
    SelectMembers(RecordingOf, events, id);
  }

  lemma {:induction false} SelectUnique(events: seq<Event>, id: string)
    requires UniqueIds(events)
    ensures UniqueIds(Select(RecordingOf, events, id))
  {
    if |events| > 0 {
      var init := events[..|events| - 1];
      SelectUnique(init, id);
      SelectMembers(RecordingOf, init, id);
      var own := Select(RecordingOf, init, id);
      forall i | 0 <= i < |own| ensures own[i].eventId != events[|events| - 1].eventId {
        assert own[i] in own && own[i] in init;
      }
    }
  }

  /** Writing the outputs back turns the recording's rows into exactly the outputs. */
  lemma PatchedRows(own: seq<Event>, es: seq<Event>)
    requires UniqueIds(own) && UniqueIds(es) && multiset(own) == multiset(es)
    ensures multiset(MapSeq(Patcher(Correlated(es)), own)) == multiset(Correlated(es))
  {
    var out := Correlated(es);
    var now := MapSeq(Patcher(out), own);
    CorrelatedUniqueIds(es);
    MultisetMembership(own, es);
    forall k | 0 <= k < |own| ensures now[k] in out && now[k].eventId == own[k].eventId {
      assert own[k] in es;
      var j := OutputOf(es, own[k]);
      PatchHit(own[k], out, j);
      assert Erase(out[j]).eventId == Erase(own[k]).eventId;
    }
    forall o | o in out ensures o in now {
      var j :| 0 <= j < |out| && out[j] == o;
      var e := InputOf(es, o);
      var k :| 0 <= k < |own| && own[k] == e;
      PatchHit(own[k], out, j);
      assert now[k] == o;
    }
    SameElements(now, out);
  }

  /** After `finish_recording`, reading the recording's rows back by sequence gives exactly
      the list it returned. */
  lemma FinishAgrees(events: seq<Event>, id: string)
    requires UniqueIds(events)
    ensures var out := Correlated(EventsFor(events, id));
        && EventsFor(MapSeq(Patcher(out), events), id) == out
        && UniqueIds(MapSeq(Patcher(out), events))
  {
    var es := EventsFor(events, id);
    var out := Correlated(es);
    var own := Select(RecordingOf, events, id);
    var now := MapSeq(Patcher(out), events);
    OwnRows(events, id);
    forall row ensures Erase(Patch(row, out)) == Erase(row) {
      PatchKeeps(row, out);
    }
    assert forall row :: RecordingOf(Patcher(out)(row)) == RecordingOf(Erase(Patch(row, out))) == RecordingOf(row);
    SelectMap(Patcher(out), RecordingOf, RecordingOf, events, id);
    PatchedRows(own, es);
    OutputSorts(es, Select(RecordingOf, now, id));
    forall i, j | 0 <= i < j < |now| ensures now[i].eventId != now[j].eventId {
      assert Erase(now[i]).eventId == events[i].eventId && Erase(now[j]).eventId == events[j].eventId;
    }
  }

  lemma SequencesDistinguish(es: seq<Event>)
    ensures KeysDistinguish(SequenceKey, Correlated(es)) && Sorted(SequenceKey, Correlated(es))
  {
    var out := Correlated(es);
    CorrelateIsStableRegrouping(es);
    forall x, y | x in out && y in out && SequenceKey(x) == SequenceKey(y) ensures x == y {
      var i :| 0 <= i < |out| && out[i] == x;
      var j :| 0 <= j < |out| && out[j] == y;
    }
  }

  lemma OutputSorts(es: seq<Event>, rows: seq<Event>)
    requires multiset(rows) == multiset(Correlated(es))
    ensures SortBy(SequenceKey, rows) == Correlated(es)
  {
    SequencesDistinguish(es);
    SortPermutation(SequenceKey, Correlated(es), rows);
    SortSorted(SequenceKey, Correlated(es));
  }

  lemma {:induction false} PatchKeepsOthers(events: seq<Event>, out: seq<Event>, other: string)
    requires forall e, o :: e in events && e.recordingId == other && o in out ==> o.eventId != e.eventId
    ensures Select(RecordingOf, MapSeq(Patcher(out), events), other) == Select(RecordingOf, events, other)
  {
    if |events| > 0 {
      var n := |events| - 1;
      assert events == events[..n] + [events[n]];
      PatchKeepsOthers(events[..n], out, other);
      var now := MapSeq(Patcher(out), events);
      assert now[..n] == MapSeq(Patcher(out), events[..n]);
      PatchKeeps(events[n], out);
      assert RecordingOf(now[n]) == RecordingOf(Erase(now[n])) == RecordingOf(events[n]);
      if events[n].recordingId == other {
        PatchMiss(events[n], out);
      }
    }
  }

  /** ... and the rows of every other recording stay as they were. */
  lemma FinishKeepsOthers(events: seq<Event>, id: string, other: string)
    requires UniqueIds(events) && other != id
    ensures Select(RecordingOf, MapSeq(Patcher(Correlated(EventsFor(events, id))), events), other) == Select(RecordingOf, events, other)
  {
    var es := EventsFor(events, id);
    OwnRows(events, id);
    forall e, o | e in events && e.recordingId == other && o in Correlated(es) ensures o.eventId != e.eventId {
      var i := InputOf(es, o);
      assert Erase(i).eventId == i.eventId && Erase(o).eventId == o.eventId;
    }
    PatchKeepsOthers(events, Correlated(es), other);
  }
}
