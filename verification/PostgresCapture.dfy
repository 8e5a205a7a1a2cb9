/** infrareplay/plugins/postgres_capture/plugin.py: a query and its result per statement. */
module PostgresCapture {
  import opened Json
  import opened Sequences
  import opened Events

  /** The capture context bound to the request that runs the statement. */
  datatype Context = Context(recording: string, correlation: string)

  /** The two events of one statement: the query at its start, the result at its end and
      under the query, numbered in a row. */
  function Pair(active: Context, sequence: nat, qid: string, rid: string, query: Payload, result: Payload, started: int, ended: int): (Event, Event) {
    (Event(active.recording, qid, None, sequence, started, ended - started, PgQuery, active.correlation, query, Extras()),
     Event(active.recording, rid, Some(qid), sequence + 1, ended, 0, PgResult, active.correlation, result, Extras()))
  }

  /** -1 is the driver's "unknown". */
  function ResultPayload(rowcount: int, describes: bool): (p: Payload)
    ensures Get(p, "rows_affected") == Null <==> rowcount == -1
    ensures rowcount != -1 ==> Get(p, "rows_affected") == Num(rowcount as real)
    ensures Get(p, "returns_rows") == Bool(describes)
  {
    assert |"rows_affected"| != |"returns_rows"|;
    map["rows_affected" := if rowcount == -1 then Null else Num(rowcount as real), "returns_rows" := Bool(describes)]
  }

  /** An event of the listener, field by field. */
  predicate IsStatement(e: Event, id: string, kind: EventType, payload: Payload, sequence: nat, parent: Option<string>,
                        active: Context, timestamp: int, duration: int) {
    && e.recordingId == active.recording && e.correlationId == active.correlation
    && e.eventId == id && e.parent == parent && e.kind == kind && e.payload == payload
    && e.sequence == sequence && e.timestamp == timestamp && e.duration == duration
  }

  class SqlListener {
    var startedAt: map<nat, int>   // conn.info, by connection
    var sequence: nat
    var queue: seq<Event>

    constructor ()
      ensures startedAt == map[] && sequence == 0 && queue == []
    {
      startedAt, sequence, queue := map[], 0, [];
    }

    method Before(conn: nat, now: int)
      modifies `startedAt
      ensures startedAt == old(startedAt)[conn := now]
    {
      startedAt := startedAt[conn := now];
    }

    method NextEvent(kind: EventType, payload: Payload, active: Context, id: string, timestamp: int, duration: int, parent: Option<string>)
      returns (event: Event)
      modifies `sequence
      ensures event == Event(active.recording, id, parent, old(sequence), timestamp, duration, kind, active.correlation, payload, Extras())
      ensures sequence == old(sequence) + 1
    {
      event := Event(active.recording, id, parent, sequence, timestamp, duration, kind, active.correlation, payload, Extras());
      sequence := sequence + 1;
    }

    /** `early` is the clock where a missing start time is read, `now` the clock after it. */
    method After(conn: nat, active: Option<Context>, qid: string, rid: string, query: Payload, result: Payload, early: int, now: int)
      modifies this
      ensures active.None? ==> startedAt == old(startedAt) && sequence == old(sequence) && queue == old(queue)
      ensures active.Some? ==>
          var started := if conn in old(startedAt) then old(startedAt)[conn] else early;
          var (q, a) := Pair(active.value, old(sequence), qid, rid, query, result, started, now);
          && startedAt == old(startedAt) - {conn}
          && sequence == old(sequence) + 2
          && queue == old(queue) + [q, a]
      ensures active.Some? ==>
          var started := if conn in old(startedAt) then old(startedAt)[conn] else early;
          && |queue| == |old(queue)| + 2
          && IsStatement(queue[|old(queue)|], qid, PgQuery, query, old(sequence), None, active.value, started, now - started)
          && IsStatement(queue[|old(queue)| + 1], rid, PgResult, result, old(sequence) + 1, Some(qid), active.value, now, 0)
    {
      if active.None? {
        return;
      }
      var started := if conn in startedAt then startedAt[conn] else early;
      startedAt := startedAt - {conn};
      var elapsed := now - started;
      var q := NextEvent(PgQuery, query, active.value, qid, started, elapsed, None);
      queue := queue + [q];
      var a := NextEvent(PgResult, result, active.value, rid, started + elapsed, 0, Some(q.eventId));
      queue := queue + [a];
    }

    /** Events queued but not yet yielded. */
    method Pending() returns (n: nat)
      ensures n == |queue|
    {
      n := |queue|;
    }
  }
}
