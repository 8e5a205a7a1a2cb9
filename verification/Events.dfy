/** infrareplay/schema: events, recordings and comparison rows. */
module Events {
  import opened Json
  import opened Sequences

  datatype EventType = HttpRequest | HttpResponse | PgQuery | PgResult

  /** Fields that no stage of the pipeline reads. */
  datatype Extra = Extra(
    schemaVersion: int, service: string, traceId: Option<string>, spanId: Option<string>)

  datatype Event = Event(
    recordingId: string,
    eventId: string,
    parent: Option<string>,
    sequence: int,
    timestamp: int,
    duration: int,
    kind: EventType,
    correlationId: string,
    payload: Payload,
    extra: Extra)

  /** What a live producer puts there. */
  function Extras(): Extra { Extra(1, "", None, None) }

  /** What an HTTP producer's `_event` builds; the caller counts. */
  function HttpEvent(recording: string, sequence: nat, kind: EventType, payload: Payload, correlation: string, parent: Option<string>, id: string, now: int): Event {
    Event(recording, id, parent, sequence, now, 0, kind, correlation, payload, Extras())
  }

  datatype Category = MATCH | DIFFERENT | MISSING | NEW | ERROR

  datatype ComparisonResult = ComparisonResult(
    replayRecordingId: string,
    originalId: Option<string>,
    replayedId: Option<string>,
    kind: EventType,
    category: Category,
    diff: Payload)

  function IdOf(e: Event): string { e.eventId }

  function CorrOf(e: Event): string { e.correlationId }

  function RecordingOf(e: Event): string { e.recordingId }

  /** (correlation id, event type). */
  function KindOf(e: Event): (string, EventType) { (e.correlationId, e.kind) }

  /** `key=lambda e: (e.timestamp_ns, e.sequence)`. */
  function EventKey(e: Event): Key { (e.timestamp, e.sequence) }

  /** `key=lambda e: e.sequence`, and the store's `order_by(EventRow.sequence)`. */
  function SequenceKey(e: Event): Key { (e.sequence, 0) }

  function PayloadOf(e: Event): Payload { e.payload }

  predicate IsRequest(e: Event) { e.kind.HttpRequest? }

  /** `[e for e in events if e.event_type is HTTP_REQUEST]`. */
  function Requests(es: seq<Event>): seq<Event> {
    Select(IsRequest, es, true)
  }

  ghost predicate UniqueIds(es: seq<Event>) {
    forall i, j :: 0 <= i < j < |es| ==> es[i].eventId != es[j].eventId
  }

  ghost predicate RealIds(es: seq<Event>) {
    UniqueIds(es) && forall e :: e in es ==> e.eventId != ""
  }

  lemma UniqueIdsPermutation(a: seq<Event>, b: seq<Event>)
    requires multiset(a) == multiset(b) && UniqueIds(a)
    ensures UniqueIds(b)
  {
    MapPermutation(IdOf, a, b);
    assert NoDuplicates(MapSeq(IdOf, a));
    PermutationNoDuplicates(MapSeq(IdOf, a), MapSeq(IdOf, b));
    forall i, j | 0 <= i < j < |b| ensures b[i].eventId != b[j].eventId {
      assert MapSeq(IdOf, b)[i] != MapSeq(IdOf, b)[j];
    }
  }
}
