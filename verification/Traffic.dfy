/** The live system as steps that interleave freely. */
module Traffic {
  import opened Json
  import opened Sequences
  import opened Events
  import opened Agent
  import opened PostgresCapture

  // Any number of requests, forwarded by a capture proxy or sent by a replay target, are handled
  // by one instrumented app whose SQL events share one queue, and ingested by InfraReplay.
  //
  //   one app-side request:   Running --Drain--> Flushing --(Check, Append)*--> Answered
  //
  // A drain is one step (`pending()` never lets it wait); each POST is two, because
  // `ingest_events` checks the status and appends in separate transactions; so is finishing
  // a recording, which reads its events first and sets the status later.

  datatype Status = Recording | Completed

  datatype Phase =
    | Running(statement: Option<int>)               // start time of the SQL statement under way
    | Flushing(batches: seq<Batch>, accepted: bool) // POSTs still to make; the first passed its check
    | Answered                                      // the app's response has left

  datatype Request = Request(
    recording: string,
    correlation: string,
    sent: nat,            // position of its http.request in the log
    reply: Option<nat>,   // position of its http.response in the log
    phase: Phase)

  datatype State = State(
    clock: int,
    ids: set<string>,            // event ids handed out so far
    requests: seq<Request>,
    http: seq<Event>,            // HTTP events of all producers, as emitted
    httpOwner: seq<nat>,         // ... and the request each belongs to
    sql: seq<Event>,             // SQL events of the app's listener, as emitted
    sqlOwner: seq<nat>,
    queue: seq<Event>,           // emitted, not drained
    store: seq<Event>,           // appended by ingest, in arrival order
    lost: seq<Event>,            // refused by the status check, or dropped on an HTTP error
    status: map<string, Status>,
    collected: map<string, seq<Event>>) // what finish_recording read before completing

  datatype Label =
    | Start(recording: string, correlation: string, id: string, payload: Payload, wait: nat)
    | SqlBegin(r: nat, wait: nat)
    | SqlEnd(r: nat, qid: string, rid: string, query: Payload, result: Payload, wait: nat)
    | Drain(r: nat)
    | Check(r: nat)
    | Append(r: nat)
    | Break(r: nat)
    | Respond(r: nat)
    | Reply(r: nat, id: string, payload: Payload, wait: nat)
    | OpenRecording(recording: string)
    | Collect(recording: string)
    | Finish(recording: string)

  const INIT := State(0, {}, [], [], [], [], [], [], [], [], map[], map[])

  predicate FreshId(s: State, id: string) {
    id != "" && id !in s.ids
  }

  predicate At(s: State, r: nat) {
    r < |s.requests|
  }

  predicate Idle(s: State, r: nat) {
    r < |s.requests| && s.requests[r].phase == Running(None)
  }

  predicate Posting(s: State, r: nat) {
    r < |s.requests| && s.requests[r].phase.Flushing? && |s.requests[r].phase.batches| > 0
  }

  predicate Enabled(s: State, l: Label) {
    match l
    case Start(_, _, id, _, _) => FreshId(s, id)
    case SqlBegin(r, _) => Idle(s, r)
    case SqlEnd(r, qid, rid, _, _, _) =>
      At(s, r) && s.requests[r].phase.Running? && s.requests[r].phase.statement.Some?
      && FreshId(s, qid) && FreshId(s, rid) && qid != rid
    case Drain(r) => Idle(s, r)
    case Check(r) => Posting(s, r) && !s.requests[r].phase.accepted
    case Append(r) => Posting(s, r) && s.requests[r].phase.accepted
    case Break(r) => Posting(s, r)
    case Respond(r) => At(s, r) && s.requests[r].phase.Flushing? && |s.requests[r].phase.batches| == 0
    case Reply(r, id, _, _) => At(s, r) && s.requests[r].phase.Answered? && s.requests[r].reply.None? && FreshId(s, id)
    case OpenRecording(recording) => recording !in s.status
    case Collect(recording) => recording in s.status
    case Finish(recording) => recording in s.status && recording in s.collected
  }

  /** Each producer serves one recording and numbers its own events from 0. */
  function Sender(s: State, recording: string, correlation: string, id: string, parent: Option<string>,
                  kind: EventType, payload: Payload, now: int): Event {
    HttpEvent(recording, |Select(RecordingOf, s.http, recording)|, kind, payload, correlation, parent, id, now)
  }

  function SetPhase(s: State, r: nat, phase: Phase): State
    requires At(s, r)
  {
    s.(requests := s.requests[r := s.requests[r].(phase := phase)])
  }

  function SqlPair(s: State, r: nat, qid: string, rid: string, query: Payload, result: Payload, started: int, ended: int): (Event, Event)
    requires At(s, r)
  {
    // One listener serves the whole app: its counter is the number of SQL events so far.
    Pair(Context(s.requests[r].recording, s.requests[r].correlation), |s.sql|, qid, rid, query, result, started, ended)
  }

  function Apply(s: State, l: Label): State
    requires Enabled(s, l)
  {
    match l
    case Start(recording, correlation, id, payload, wait) =>
      var now := s.clock + wait;
      var event := Sender(s, recording, correlation, id, None, HttpRequest, payload, now);
      s.(clock := now, ids := s.ids + {id},
         requests := s.requests + [Request(recording, correlation, |s.http|, None, Running(None))],
         http := s.http + [event], httpOwner := s.httpOwner + [|s.requests|])
    case SqlBegin(r, wait) =>
      SetPhase(s.(clock := s.clock + wait), r, Running(Some(s.clock + wait)))
    case SqlEnd(r, qid, rid, query, result, wait) =>
      var now := s.clock + wait;
      var (q, a) := SqlPair(s, r, qid, rid, query, result, s.requests[r].phase.statement.value, now);
      SetPhase(s.(clock := now, ids := s.ids + {qid, rid},
                  sql := s.sql + [q, a], sqlOwner := s.sqlOwner + [r, r],
                  queue := s.queue + [q, a]), r, Running(None))
    case Drain(r) =>
      SetPhase(s.(queue := []), r, Flushing(Batches(s.queue), false))
    case Check(r) =>
      var batches := s.requests[r].phase.batches;
      var recording := batches[0].recording;
      if recording in s.status && s.status[recording].Recording?
      then SetPhase(s, r, Flushing(batches, true))
      else SetPhase(s.(lost := s.lost + batches[0].events), r, Flushing(batches[1..], false))
    case Append(r) =>
      var batches := s.requests[r].phase.batches;
      SetPhase(s.(store := s.store + batches[0].events), r, Flushing(batches[1..], false))
    case Break(r) =>
      SetPhase(s.(lost := s.lost + FlattenBatches(s.requests[r].phase.batches)), r, Flushing([], false))
    case Respond(r) =>
      SetPhase(s, r, Answered)
    case Reply(r, id, payload, wait) =>
      var now := s.clock + wait;
      var q := s.requests[r];
      var parent := if q.sent < |s.http| then Some(s.http[q.sent].eventId) else None;
      var event := Sender(s, q.recording, q.correlation, id, parent, HttpResponse, payload, now);
      s.(clock := now, ids := s.ids + {id},
         requests := s.requests[r := q.(reply := Some(|s.http|))],
         http := s.http + [event], httpOwner := s.httpOwner + [r])
    case OpenRecording(recording) => s.(status := s.status[recording := Recording])
    case Collect(recording) =>
      s.(collected := s.collected[recording := Select(RecordingOf, s.store, recording)])
    case Finish(recording) => s.(status := s.status[recording := Completed])
  }

  /** The state after the labels `ls`, when each could be taken in turn. */
  ghost function Run(ls: seq<Label>): Option<State> {
    if |ls| == 0 then Some(INIT)
    else match Run(ls[..|ls| - 1])
      case None => None
      case Some(s) => if Enabled(s, ls[|ls| - 1]) then Some(Apply(s, ls[|ls| - 1])) else None
  }

  ghost predicate Legal(ls: seq<Label>) {
    Run(ls).Some?
  }

  ghost function Exec(ls: seq<Label>): State
    requires Legal(ls)
  {
    Run(ls).value
  }

  lemma RunStep(ls: seq<Label>)
    requires Legal(ls) && |ls| > 0
    ensures Legal(ls[..|ls| - 1]) && Enabled(Exec(ls[..|ls| - 1]), ls[|ls| - 1])
    ensures Exec(ls) == Apply(Exec(ls[..|ls| - 1]), ls[|ls| - 1])
  {
  }

  // ------------------------------------------------------------- bookkeeping

  /** Every event belongs to the request that caused it. */
  ghost predicate Booked(s: State) {
    && |s.httpOwner| == |s.http| && |s.sqlOwner| == |s.sql|
    && (forall r :: 0 <= r < |s.requests| ==>
          && s.requests[r].sent < |s.http| && s.httpOwner[s.requests[r].sent] == r
          && (s.requests[r].reply.Some? ==>
                s.requests[r].phase.Answered? && s.requests[r].sent < s.requests[r].reply.value < |s.http|
                && s.httpOwner[s.requests[r].reply.value] == r))
    && (forall k :: 0 <= k < |s.http| ==> s.httpOwner[k] < |s.requests| && HttpBooked(s, k))
    && (forall k :: 0 <= k < |s.sql| ==> s.sqlOwner[k] < |s.requests| && SqlBooked(s, k))
  }

  ghost predicate HttpBooked(s: State, k: nat)
    requires k < |s.http| && k < |s.httpOwner| && s.httpOwner[k] < |s.requests|
  {
    var e, q := s.http[k], s.requests[s.httpOwner[k]];
    && e.recordingId == q.recording && e.correlationId == q.correlation
    && (k == q.sent || q.reply == Some(k))
    && (k == q.sent <==> e.kind.HttpRequest?)
    && (k != q.sent ==> e.kind.HttpResponse?)
  }

  ghost predicate SqlBooked(s: State, k: nat)
    requires k < |s.sql| && k < |s.sqlOwner| && s.sqlOwner[k] < |s.requests|
  {
    var e, q := s.sql[k], s.requests[s.sqlOwner[k]];
    && e.recordingId == q.recording && e.correlationId == q.correlation
    && e.sequence == k
    && (e.kind.PgQuery? || e.kind.PgResult?)
  }

  /** Steps that emit nothing: at most one request changes phase. */
  predicate Silent(l: Label) {
    !l.Start? && !l.SqlEnd? && !l.Reply?
  }

  ghost predicate SameEvents(s: State, t: State) {
    && t.http == s.http && t.httpOwner == s.httpOwner && t.sql == s.sql && t.sqlOwner == s.sqlOwner
    && |t.requests| == |s.requests|
    && (forall r :: 0 <= r < |s.requests| ==> t.requests[r].(phase := s.requests[r].phase) == s.requests[r])
    && (forall r :: 0 <= r < |s.requests| && s.requests[r].phase.Answered? ==> t.requests[r].phase.Answered?)
  }

  lemma SilentSameEvents(s: State, l: Label)
    requires Enabled(s, l) && Silent(l)
    ensures SameEvents(s, Apply(s, l))
  {
  }

  lemma BookedSilent(s: State, t: State)
    requires Booked(s) && SameEvents(s, t)
    ensures Booked(t)
  {
    forall k | 0 <= k < |t.http| ensures HttpBooked(t, k) {
      assert HttpBooked(s, k);
    }
    forall k | 0 <= k < |t.sql| ensures SqlBooked(t, k) {
      assert SqlBooked(s, k);
    }
  }

  lemma BookedStart(s: State, l: Label)
    requires Booked(s) && Enabled(s, l) && l.Start?
    ensures Booked(Apply(s, l))
  {
    var t := Apply(s, l);
    forall k | 0 <= k < |s.http| ensures HttpBooked(t, k) && t.httpOwner[k] == s.httpOwner[k] {
      assert HttpBooked(s, k);
    }
    forall k | 0 <= k < |t.sql| ensures SqlBooked(t, k) {
      assert SqlBooked(s, k);
    }
    assert HttpBooked(t, |s.http|);
  }

  lemma BookedSql(s: State, l: Label)
    requires Booked(s) && Enabled(s, l) && l.SqlEnd?
    ensures Booked(Apply(s, l))
  {
    var t := Apply(s, l);
    forall k | 0 <= k < |t.http| ensures HttpBooked(t, k) {
      assert HttpBooked(s, k);
    }
    forall k | 0 <= k < |s.sql| ensures SqlBooked(t, k) && t.sqlOwner[k] == s.sqlOwner[k] {
      assert SqlBooked(s, k);
    }
    assert SqlBooked(t, |s.sql|) && SqlBooked(t, |s.sql| + 1);
  }

  lemma BookedReply(s: State, l: Label)
    requires Booked(s) && Enabled(s, l) && l.Reply?
    ensures Booked(Apply(s, l))
  {
    var t := Apply(s, l);
    forall k | 0 <= k < |s.http| ensures HttpBooked(t, k) && t.httpOwner[k] == s.httpOwner[k] {
      assert HttpBooked(s, k);
    }
    forall k | 0 <= k < |t.sql| ensures SqlBooked(t, k) {
      assert SqlBooked(s, k);
    }
    assert HttpBooked(t, |s.http|);
  }

  lemma BookedStep(s: State, l: Label)
    requires Booked(s) && Enabled(s, l)
    ensures Booked(Apply(s, l))
  {
    if Silent(l) {
      SilentSameEvents(s, l);
      BookedSilent(s, Apply(s, l));
    } else if l.Start? {
      BookedStart(s, l);
    } else if l.SqlEnd? {
      BookedSql(s, l);
    } else {
      BookedReply(s, l);
    }
  }

  lemma {:induction false} AlwaysBooked(ls: seq<Label>)
    requires Legal(ls)
    ensures Booked(Exec(ls))
  {
    if |ls| > 0 {
      RunStep(ls);
      AlwaysBooked(ls[..|ls| - 1]);
      BookedStep(Exec(ls[..|ls| - 1]), ls[|ls| - 1]);
    }
  }
}
