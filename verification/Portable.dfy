/** infrareplay/recording/portable.py and import_recording: the round trip through a bundle. */
module Portable {
  import opened Json
  import opened Sequences
  import opened Events
  import opened Redaction
  import opened Correlate
  import opened CorrelateLaws
  import opened Linking
  import opened LinkingLaws
  import opened Comparators
  import opened ComparisonLaws
  import opened Recordings
  import opened Sessions
  import opened Naturality

  const BUNDLE_VERSION := 1

  datatype Header = Header(id: string, meta: Meta, status: Recordings.Status)

  /** The document: a missing version, header or event list is a missing key. */
  datatype Bundle = Bundle(version: Option<int>, header: Option<Header>, events: Option<seq<Event>>)

  datatype BundleError = NotABundle | Newer(version: int) | Malformed

  datatype Parsed = Ok(recording: Recording) | Err(error: BundleError)

  function BuildBundle(r: Recording): Bundle {
    Bundle(Some(BUNDLE_VERSION), Some(Header(r.id, r.meta, r.status)), Some(r.events))
  }

  /** An absent event list reads as empty; the checks come in this order. */
  function ParseBundle(doc: Bundle): (p: Parsed)
    ensures p == Err(NotABundle) <==> doc.version.None?
    ensures forall v :: p == Err(Newer(v)) <==> doc.version == Some(v) && v > BUNDLE_VERSION
    ensures p == Err(Malformed) <==> doc.version.Some? && doc.version.value <= BUNDLE_VERSION && doc.header.None?
    ensures p.Ok? ==> doc.header == Some(Header(p.recording.id, p.recording.meta, p.recording.status))
    ensures p.Ok? ==> doc.events == Some(p.recording.events) || (doc.events.None? && p.recording.events == [])
  {
    match doc.version
    case None => Err(NotABundle)
    case Some(version) =>
      if version > BUNDLE_VERSION then Err(Newer(version))
      else match doc.header
        case None => Err(Malformed)
        case Some(h) => Ok(Recording(h.id, h.meta, h.status, match doc.events case Some(es) => es case None => []))
  }

  // ----------------------------------------------------------------- renaming

  datatype Rekeying = Rekeying(recording: string, ids: map<string, string>)

  /** `renamed.get(parent)`: a parent outside the recording becomes None. */
  function NewParent(r: Rekeying, parent: Option<string>): Option<string> {
    if parent.Some? && parent.value in r.ids then Some(r.ids[parent.value]) else None
  }

  function Rekey(r: Rekeying, e: Event): Event {
    e.(recordingId := r.recording,
       eventId := if e.eventId in r.ids then r.ids[e.eventId] else e.eventId,
       parent := NewParent(r, e.parent))
  }

  function RekeyBy(r: Rekeying): Event -> Event {
    (e: Event) => Rekey(r, e)
  }

  function Rekeyed(r: Rekeying, es: seq<Event>): seq<Event> {
    MapSeq(RekeyBy(r), es)
  }

  /** Fresh ids for all of `es`, one each, and every recorded parent among them. */
  ghost predicate Covers(r: Rekeying, es: seq<Event>) {
    && "" !in r.ids
    && (forall e :: e in es ==> e.eventId in r.ids && (Recorded(e) ==> e.parent.value in r.ids))
    && (forall id :: id in r.ids ==> r.ids[id] != "")
  }

  lemma RekeyNatural(r: Rekeying, es: seq<Event>)
    requires Covers(r, es)
    ensures Natural(RekeyBy(r), p => NewParent(r, p), es)
  {
    forall e | e in es ensures Recorded(Rekey(r, e)) <==> Recorded(e) {}
  }

  /** `correlate` commutes with `rekey`, for any stream whose parents are internal. */
  lemma CorrelateRekeyed(r: Rekeying, es: seq<Event>)
    requires Covers(r, es)
    ensures Correlated(Rekeyed(r, es)) == Rekeyed(r, Correlated(es))
  {
    RekeyNatural(r, es);
    CorrelateNatural(RekeyBy(r), p => NewParent(r, p), es);
  }

  // --------------------------------------------------------------- round trip

  /** What `get_recording` returns of a finished recording: correlated, redacted, its own. */
  ghost predicate Exported(es: seq<Event>, id: string) {
    && Correlated(es) == es
    && (forall e :: e in es ==> e.recordingId == id && Masked(Obj(e.payload)))
  }

  lemma RedactedRow(es: seq<Event>, y: Event, id: string)
    requires y in Redacted(es) && forall e :: e in es ==> e.recordingId == id
    ensures y.recordingId == id && Masked(Obj(y.payload))
  {
    var k :| 0 <= k < |es| && Redacted(es)[k] == y;
    assert es[k] in es;
    ScrubFixesMasked(Obj(es[k].payload));
    assert Obj(y.payload) == Scrub(Obj(es[k].payload));
  }

  lemma ErasedAlike(x: Event, y: Event)
    requires Erase(x) == Erase(y)
    ensures x.recordingId == y.recordingId && x.payload == y.payload
  {
    assert x.payload == Erase(x).payload && y.payload == Erase(y).payload;
    assert x.recordingId == Erase(x).recordingId && y.recordingId == Erase(y).recordingId;
  }

  /** `append_events` and `finish_recording` produce exactly such recordings. */
  lemma FinishedIsExported(es: seq<Event>, id: string)
    requires forall e :: e in es ==> e.recordingId == id
    ensures Exported(Correlated(Redacted(es)), id)
  {
    CorrelateIdempotent(Redacted(es));
    forall x | x in Correlated(Redacted(es)) ensures x.recordingId == id && Masked(Obj(x.payload)) {
      var y := InputOf(Redacted(es), x);
      ErasedAlike(x, y);
      RedactedRow(es, y, id);
    }
  }

  lemma MaskedRedacts(es: seq<Event>)
    requires forall e :: e in es ==> Masked(Obj(e.payload))
    ensures Redacted(es) == es
  {
    forall i | 0 <= i < |es| ensures Redact(es[i]) == es[i] {
      assert es[i] in es;
      ScrubFixesMasked(Obj(es[i].payload));
    }
  }

  /** Rows of another instance, joined by an exported recording's, read back as exported. */
  lemma ImportReads(events: seq<Event>, es: seq<Event>, id: string)
    requires Exported(es, id) && forall e :: e in events ==> e.recordingId != id
    ensures EventsFor(events + Redacted(es), id) == es
    ensures Correlated(EventsFor(events + Redacted(es), id)) == es
  {
    MaskedRedacts(es);
    SelectConcat(RecordingOf, events, es, id);
    SelectNone(RecordingOf, events, id);
    SelectAll(RecordingOf, es, id);
    assert [] + es == es;
    CorrelateIsStableRegrouping(es);
    SortSorted(SequenceKey, es);
  }

  lemma RekeyedExported(r: Rekeying, es: seq<Event>, id: string)
    requires Exported(es, id) && Covers(r, es)
    ensures Exported(Rekeyed(r, es), r.recording)
  {
    CorrelateRekeyed(r, es);
    forall x | x in Rekeyed(r, es) ensures x.recordingId == r.recording && Masked(Obj(x.payload)) {
      var k :| 0 <= k < |es| && Rekeyed(r, es)[k] == x;
      assert es[k] in es;
    }
  }

  /** Start, append, finish; a clashing event id leaves the recording open and empty. */
  method Load(sessions: Sessions, id: string, meta: Meta, es: seq<Event>) returns (finished: Option<seq<Event>>)
    requires sessions.Valid() && id !in sessions.store.recordings
    modifies sessions.store
    ensures sessions.Valid()
    ensures finished.Some? <==> UniqueIds(old(sessions.store.events) + es)
    ensures sessions.store.recordings == old(sessions.store.recordings)[id := Row(meta, if finished.Some? then COMPLETED else RECORDING)]
    ensures finished.Some? ==>
        && finished.value == Correlated(EventsFor(old(sessions.store.events) + Redacted(es), id))
        && EventsFor(sessions.store.events, id) == finished.value
  {
    sessions.OpenOther(id, meta);
    var ok := sessions.Record(es);
    if !ok {
      return None;
    }
    var events := sessions.FinishOther(id);
    finished := Some(events);
  }

  /** `import_recording`: parse, re-key on a clash, load. `r` holds the fresh ids that a clash
      would use. */
  method ImportRecording(sessions: Sessions, doc: Bundle, r: Rekeying) returns (recording: Option<Recording>)
    requires sessions.Valid() && r.recording !in sessions.store.recordings
    modifies sessions.store
    ensures sessions.Valid()
    ensures ParseBundle(doc).Err? ==>
        recording.None? && sessions.store.events == old(sessions.store.events) && sessions.store.recordings == old(sessions.store.recordings)
    ensures ParseBundle(doc).Ok? ==>
        var p := ParseBundle(doc).recording;
        var taken := p.id in old(sessions.store.recordings);
        var id, es := if taken then r.recording else p.id, if taken then Rekeyed(r, p.events) else p.events;
        && (recording.Some? <==> UniqueIds(old(sessions.store.events) + es))
        && (recording.Some? ==>
              && recording.value == Recording(id, p.meta, COMPLETED, Correlated(EventsFor(old(sessions.store.events) + Redacted(es), id)))
              && sessions.store.recordings == old(sessions.store.recordings)[id := Row(p.meta, COMPLETED)]
              && EventsFor(sessions.store.events, id) == recording.value.events)
  {
    var p := ParseBundle(doc);
    if p.Err? {
      return None;
    }
    var rec := Target(p.recording, sessions.store.recordings.Keys, r);
    var finished := Load(sessions, rec.id, rec.meta, rec.events);
    if finished.None? {
      return None;
    }
    recording := Some(rec.(events := finished.value));
  }

  /** What will be loaded: the parsed recording, under fresh ids if its own is taken. */
  function Target(parsed: Recording, taken: set<string>, r: Rekeying): Recording {
    if parsed.id in taken then Recording(r.recording, parsed.meta, COMPLETED, Rekeyed(r, parsed.events))
    else parsed.(status := COMPLETED)
  }

  /** Import after export, on an instance without the recording: the same events. */
  lemma ImportAfterExport(events: seq<Event>, rec: Recording)
    requires Exported(rec.events, rec.id)
    requires forall e :: e in events ==> e.recordingId != rec.id
    ensures ParseBundle(BuildBundle(rec)) == Ok(rec)
    ensures Correlated(EventsFor(events + Redacted(rec.events), rec.id)) == rec.events
  {
    ImportReads(events, rec.events, rec.id);
  }

  /** The same event under its new ids. */
  ghost predicate Carried(r: Rekeying, a: Event, b: Event) {
    && a.eventId in r.ids && b == a.(recordingId := r.recording, eventId := r.ids[a.eventId], parent := b.parent)
    && (Recorded(a) ==> a.parent.value in r.ids && b.parent == Some(r.ids[a.parent.value]))
    && (!Recorded(a) ==> b.parent == None)
  }

  /** ... and on an instance that has it: the same events under the new ids, parents carried
      along, nothing else changed. */
  lemma ImportAfterExportRekeyed(events: seq<Event>, rec: Recording, r: Rekeying)
    requires Exported(rec.events, rec.id) && Covers(r, rec.events)
    requires forall e :: e in events ==> e.recordingId != r.recording
    ensures ParseBundle(BuildBundle(rec)) == Ok(rec)
    ensures Correlated(EventsFor(events + Redacted(Rekeyed(r, rec.events)), r.recording)) == Rekeyed(r, rec.events)
    ensures forall i :: 0 <= i < |rec.events| ==> Carried(r, rec.events[i], Rekeyed(r, rec.events)[i])
  {
    RekeyedExported(r, rec.events, rec.id);
    ImportReads(events, Rekeyed(r, rec.events), r.recording);
    forall i | 0 <= i < |rec.events| ensures Carried(r, rec.events[i], Rekeyed(r, rec.events)[i]) {
      assert rec.events[i] in rec.events;
    }
  }

  /** The round trip of the operation: the bundle of an exported recording imports as that very
      recording where its id is free, and as the copy under the new ids where it is taken. */
  method ImportExported(sessions: Sessions, rec: Recording, r: Rekeying) returns (recording: Option<Recording>)
    requires sessions.Valid() && Exported(rec.events, rec.id) && Covers(r, rec.events)
    requires r.recording !in sessions.store.recordings && NoRows(sessions.store.events, r.recording)
    requires rec.id !in sessions.store.recordings ==>
        NoRows(sessions.store.events, rec.id) && UniqueIds(sessions.store.events + rec.events)
    requires rec.id in sessions.store.recordings ==> UniqueIds(sessions.store.events + Rekeyed(r, rec.events))
    modifies sessions.store
    ensures sessions.Valid()
    ensures rec.id !in old(sessions.store.recordings) ==> recording == Some(Recording(rec.id, rec.meta, COMPLETED, rec.events))
    ensures rec.id in old(sessions.store.recordings) ==>
        && recording.Some? && recording.value.id == r.recording && recording.value.meta == rec.meta
        && recording.value.status == COMPLETED && |recording.value.events| == |rec.events|
        && forall i :: 0 <= i < |rec.events| ==> Carried(r, rec.events[i], recording.value.events[i])
  {
    if rec.id in sessions.store.recordings {
      ImportAfterExportRekeyed(sessions.store.events, rec, r);
    } else {
      ImportAfterExport(sessions.store.events, rec);
    }
    recording := ImportRecording(sessions, BuildBundle(rec), r);
  }

  predicate NoRows(events: seq<Event>, id: string) {
    forall e :: e in events ==> e.recordingId != id
  }

  // -------------------------------------------------- the import against its original

  /** Linking a recording to its re-keyed import finds exactly the renaming. */
  lemma LinksAreTheRenaming(r: Rekeying, es: seq<Event>, e: Event)
    requires UniqueIds(es) && Covers(r, es) && e in es
    ensures e.eventId in Links(es, Rekeyed(r, es)) && Links(es, Rekeyed(r, es))[e.eventId] == r.ids[e.eventId]
  {
    var sig := PositionOf(es, e);
    PartnerNatural(RekeyBy(r), es, sig);
    Linked(es, Rekeyed(r, es), sig, e, Rekey(r, e));
  }

  lemma SelfAgrees(ignore: set<string>, kind: EventType, p: Payload)
    ensures Agree(ignore, kind, p, p) <==> "error" !in p
  {
  }

  /** No step that is compared had failed when it was captured. */
  ghost predicate ErrorFree(es: seq<Event>) {
    forall e :: e in es && Comparable(e.kind) ==> "error" !in e.payload
  }

  lemma SlotSelfAgrees(ignore: set<string>, r: Rekeying, es: seq<Event>, g: nat, kind: EventType)
    requires Comparable(kind) && ErrorFree(es)
    ensures SlotsAgree(ignore, kind, Slot(InOrder(es), g, kind), Slot(InOrder(Rekeyed(r, es)), g, kind))
  {
    var slot := Slot(InOrder(es), g, kind);
    SlotNatural(RekeyBy(r), es, g, kind);
    InOrderMembers(es);
    if g < |Keys(CorrOf, InOrder(es))| {
      SelectMembers(KindOf, InOrder(es), (Keys(CorrOf, InOrder(es))[g], kind));
    }
    forall i | 0 <= i < |slot| ensures Agree(ignore, kind, slot[i].payload, Rekeyed(r, slot)[i].payload) {
      assert slot[i] in slot;
      SelfAgrees(ignore, kind, slot[i].payload);
    }
  }

  /** An error in the capture disagrees with its own copy. */
  lemma ErrorDisagrees(ignore: set<string>, r: Rekeying, es: seq<Event>, e: Event)
    requires SemanticallyEqual(ignore, es, Rekeyed(r, es)) && e in es && Comparable(e.kind)
    ensures "error" !in e.payload
  {
    var sig := PositionOf(es, e);
    PartnerNatural(RekeyBy(r), es, sig);
    AgreeAt(ignore, es, Rekeyed(r, es), sig);
    SelfAgrees(ignore, sig.kind, e.payload);
  }

  /** ... and comparing them reports MATCH throughout if and only if no compared step had
      failed when it was captured. */
  lemma ImportMatchesOriginal(ignore: set<string>, r: Rekeying, es: seq<Event>)
    requires RealIds(es) && RealIds(Rekeyed(r, es))
    ensures AllMatch(Report(ignore, es, Rekeyed(r, es))) <==> ErrorFree(es)
  {
    AllMatchExactly(ignore, es, Rekeyed(r, es));
    if ErrorFree(es) {
      forall g: nat, kind | Comparable(kind)
        ensures SlotsAgree(ignore, kind, Slot(InOrder(es), g, kind), Slot(InOrder(Rekeyed(r, es)), g, kind))
      {
        SlotSelfAgrees(ignore, r, es, g, kind);
      }
    }
    if SemanticallyEqual(ignore, es, Rekeyed(r, es)) {
      forall e | e in es && Comparable(e.kind) ensures "error" !in e.payload {
        ErrorDisagrees(ignore, r, es, e);
      }
    }
  }
}
