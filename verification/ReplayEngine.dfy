/** infrareplay/replay/engine.py and http_target.py: what a live replay sends and records. */
module ReplayEngine {
  import opened Json
  import opened Sequences
  import opened Events
  import opened Correlate
  import opened Linking
  import opened Substitution
  import opened Traffic
  import opened LiveShape
  import opened Alignment
  import opened Redaction
  import opened Comparators
  import opened Naturality

  const RECORDING_HEADER := "x-infrareplay-recording-id"
  const CORRELATION_HEADER := "x-infrareplay-correlation-id"

  /** Headers of the captured hop. */
  const DROP_HEADERS := {"host", "content-length", "connection", "transfer-encoding", "keep-alive"}

  /** `payload.get("headers") or {}`. */
  function CapturedHeaders(payload: Payload): Payload {
    match Get(payload, "headers")
    case Obj(fields) => fields
    case _ => map[]
  }

  /** The headers that are sent: the captured ones without the hop's own, with their values,
      plus the two that tie the target's SQL to this request. */
  predicate SentHeaders(payload: Payload, run: string, correlation: string, h: Payload) {
    var captured := Get(payload, "headers");
    var hop := {"host", "content-length", "connection", "transfer-encoding", "keep-alive"};
    && Get(h, "x-infrareplay-correlation-id") == Str(correlation)
    && Get(h, "x-infrareplay-recording-id") == Str(run)
    && (forall k :: k in h && k !in {RECORDING_HEADER, CORRELATION_HEADER} ==>
          captured.Obj? && k in captured.fields && Lower(k) !in hop && h[k] == captured.fields[k])
    && (captured.Obj? ==> forall k :: k in captured.fields && Lower(k) !in hop ==> k in h)
  }

  function OutgoingHeaders(payload: Payload, run: string, correlation: string): (h: Payload)
    ensures SentHeaders(payload, run, correlation, h)
  {
    assert RECORDING_HEADER[15] != CORRELATION_HEADER[15];
    var kept := map k | k in CapturedHeaders(payload) && Lower(k) !in DROP_HEADERS :: CapturedHeaders(payload)[k];
    kept[RECORDING_HEADER := Str(run)][CORRELATION_HEADER := Str(correlation)]
  }

  /** The sent payload is the given one, with those headers. */
  ghost predicate SentAsGiven(payload: Payload, run: string, correlation: string, sent: Payload) {
    && (forall k :: k != "headers" ==> (k in sent <==> k in payload) && Get(sent, k) == Get(payload, k))
    && Get(sent, "headers").Obj? && SentHeaders(payload, run, correlation, Get(sent, "headers").fields)
  }

  function Outgoing(payload: Payload, run: string, correlation: string): Payload {
    payload["headers" := Obj(OutgoingHeaders(payload, run, correlation))]
  }

  /** One live target. `send` is cut at its await: other sends run between the two halves. */
  class HttpTarget {
    const run: string
    var sequence: nat

    constructor (run: string)
      ensures this.run == run && sequence == 0
    {
      this.run := run;
      sequence := 0;
    }

    method NextEvent(kind: EventType, payload: Payload, correlation: string, parent: Option<string>, id: string, now: int)
      returns (event: Event)
      modifies `sequence
      ensures event == HttpEvent(run, old(sequence), kind, payload, correlation, parent, id, now)
      ensures sequence == old(sequence) + 1
    {
      event := HttpEvent(run, sequence, kind, payload, correlation, parent, id, now);
      sequence := sequence + 1;
    }

    method Begin(payload: Payload, correlation: string, id: string, now: int) returns (request: Event)
      modifies `sequence
      ensures request == Event(run, id, None, old(sequence), now, 0, HttpRequest, correlation, request.payload, Extras())
      ensures request.payload == Outgoing(payload, run, correlation)
      ensures SentAsGiven(payload, run, correlation, request.payload)
      ensures sequence == old(sequence) + 1
    {
      request := NextEvent(HttpRequest, Outgoing(payload, run, correlation), correlation, None, id, now);
    }

    /** `result` is the response's payload, or `{"error": ...}`. */
    method Complete(request: Event, result: Payload, id: string, now: int) returns (reply: Event)
      modifies `sequence
      ensures reply == Event(run, id, Some(request.eventId), old(sequence), now, 0, HttpResponse, request.correlationId, result, Extras())
      ensures sequence == old(sequence) + 1
    {
      reply := NextEvent(HttpResponse, result, request.correlationId, Some(request.eventId), id, now);
    }
  }

  // ------------------------------------------------------------------ batches

  /** `payloads[start : start + size]` for start = 0, size, 2 * size, ... */
  method Chunks(payloads: seq<Payload>, size: nat) returns (batches: seq<seq<Payload>>)
    requires size > 0
    ensures Flatten(batches) == payloads
    ensures forall i :: 0 <= i < |batches| ==> 0 < |batches[i]| <= size
    ensures forall i :: 0 <= i < |batches| - 1 ==> |batches[i]| == size
  {
    batches := [];
    var start := 0;
    while start < |payloads|
      invariant Flatten(batches) == payloads[..if start < |payloads| then start else |payloads|]
      invariant forall i :: 0 <= i < |batches| ==> 0 < |batches[i]| <= size
      invariant forall i :: 0 <= i < |batches| - 1 ==> |batches[i]| == size
      invariant start < |payloads| && |batches| > 0 ==> |batches[|batches| - 1]| == size
      decreases |payloads| - start
    {
      var end := if start + size < |payloads| then start + size else |payloads|;
      var batch := payloads[start..end];
      assert (batches + [batch])[..|batches|] == batches;
      assert payloads[..start] + batch == payloads[..end];
      batches := batches + [batch];
      start := start + size;
    }
    assert payloads[..|payloads|] == payloads;
  }

  /** What `_replay_http` sends, batch by batch: None when there is nothing to replay. Every
      payload is the source's, under the one renaming that the whole run uses. */
  method Plan(source: seq<Event>, subs: SubstitutionEngine, concurrency: int) returns (batches: Option<seq<seq<Payload>>>)
    requires subs.Valid()
    modifies subs
    ensures subs.Valid() && old(subs.Memory()).ExtendedBy(subs.Memory())
    ensures batches.None? <==> Requests(source) == []
    ensures batches.Some? ==> PlanFor(source, subs.Memory(), Flatten(batches.value))
    ensures Distinct(subs.uuid4, subs.drawn) ==> subs.Memory().Sound()
    ensures batches.Some? ==> forall i :: 0 <= i < |batches.value| ==> 0 < |batches.value[i]| <= if concurrency > 1 then concurrency else 1
  {
    var requests := Requests(source);
    if |requests| == 0 {
      if Distinct(subs.uuid4, subs.drawn) {
        subs.MemorySound();
      }
      return None;
    }
    var payloads := subs.ApplyAll(MapSeq(PayloadOf, requests));
    var chunks := Chunks(payloads, if concurrency > 1 then concurrency else 1);
    batches := Some(chunks);
  }

  /** `payloads` are the source's request payloads, in order, under one renaming. */
  ghost predicate PlanFor(source: seq<Event>, memory: Renaming, payloads: seq<Payload>) {
    && |payloads| == |Requests(source)|
    && forall i :: 0 <= i < |payloads| ==> Obj(payloads[i]) == memory.Rewrite(Obj(Requests(source)[i].payload))
  }

  /** The sends of the run began in plan order: `gather` starts its coroutines first to last,
      each runs to its first await, and a batch begins after the one before it. */
  ghost predicate SentByPlan(ls: seq<Label>, run: string, payloads: seq<Payload>, correlations: seq<string>) {
    && |Sends(ls, run)| == |payloads| == |correlations|
    && forall i :: 0 <= i < |payloads| ==> Sends(ls, run)[i] == Outgoing(payloads[i], run, correlations[i])
  }

  /** The sent payload against the source's: every field but the headers is there under the
      run's renaming, and no other; the headers are the renamed ones that may be sent. */
  ghost predicate ReplaysPayload(memory: Renaming, source: Payload, run: string, correlation: string, sent: Payload) {
    && (forall k :: k != "headers" ==> (k in sent <==> k in source) && (k in source ==> Get(sent, k) == memory.Rewrite(source[k])))
    && Get(sent, "headers").Obj?
    && SentHeaders(map["headers" := memory.Rewrite(Get(source, "headers"))], run, correlation, Get(sent, "headers").fields)
  }

  lemma OutgoingReplays(memory: Renaming, source: Payload, payload: Payload, run: string, correlation: string)
    requires Obj(payload) == memory.Rewrite(Obj(source))
    ensures ReplaysPayload(memory, source, run, correlation, Outgoing(payload, run, correlation))
  {
    assert payload.Keys == source.Keys;
    assert forall k :: k in source ==> payload[k] == memory.Rewrite(source[k]);
    assert Get(payload, "headers") == memory.Rewrite(Get(source, "headers"));
  }

  /** Replay alignment, from the source's payload to the linked event: group i of the finished
      run opens with the source's i-th request under the run's renaming, and links to it,
      whatever the concurrency and the interleaving. */
  lemma ReplayedInPlace(ls: seq<Label>, run: string, source: seq<Event>, memory: Renaming, payloads: seq<Payload>,
                        correlations: seq<string>, es: seq<Event>, i: nat)
    requires Legal(ls) && RowsOf(Exec(ls), run, es) && OwnCorrelations(Exec(ls), run) && SqlKeyedAfter(Exec(ls), run)
    requires Finished(source) && UniqueIds(source) && OneRequestPerGroup(source)
    requires PlanFor(source, memory, payloads) && SentByPlan(ls, run, payloads, correlations)
    requires i < |Requests(source)|
    ensures |Groups(es)| == |Requests(source)| && |Groups(es)[i]| > 0
    ensures Obj(payloads[i]) == memory.Rewrite(Obj(Requests(source)[i].payload))
    ensures ReplaysPayload(memory, Requests(source)[i].payload, run, correlations[i], Groups(es)[i][0].payload)
    ensures Requests(source)[i].eventId in Links(source, Correlated(es))
    ensures Links(source, Correlated(es))[Requests(source)[i].eventId] == Groups(es)[i][0].eventId
  {
    ReplayAlignment(ls, run, source, es);
    OutgoingReplays(memory, Requests(source)[i].payload, payloads[i], run, correlations[i]);
  }

  /** ... and so it is in the store, where every event is redacted first. */
  lemma StoredInPlace(ls: seq<Label>, run: string, source: seq<Event>, es: seq<Event>, i: nat)
    requires Legal(ls) && RowsOf(Exec(ls), run, es) && OwnCorrelations(Exec(ls), run) && SqlKeyedAfter(Exec(ls), run)
    requires Finished(source) && UniqueIds(source) && OneRequestPerGroup(source)
    requires |Sends(ls, run)| == |Requests(source)| && i < |Requests(source)|
    ensures var stored := MapSeq(Redact, es); var links := Links(source, Correlated(stored));
        && |Groups(stored)| == |Requests(source)| && |Groups(stored)[i]| > 0
        && Groups(stored)[i][0].payload == ScrubPayload(Sends(ls, run)[i])
        && Requests(source)[i].eventId in links
        && links[Requests(source)[i].eventId] == Groups(stored)[i][0].eventId
  {
    ReplayAlignment(ls, run, source, es);
    RedactionCommutes(source, es);
    GroupsNatural(Redact, es);
  }
}
