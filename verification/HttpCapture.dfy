/** infrareplay/plugins/http_capture: the reverse proxy and the queue it emits into. */
module HttpCapture {
  import opened Json
  import opened Sequences
  import opened Events
  import opened Traffic

  /** One proxy for one recording. A request is handled in two halves, around the forward;
      other requests run between them. */
  class ReverseProxy {
    const recording: string
    var sequence: nat
    var queue: seq<Option<Event>>   // the plugin's queue; None is the sentinel of `stop`

    constructor (recording: string)
      ensures this.recording == recording && sequence == 0 && queue == []
    {
      this.recording := recording;
      sequence, queue := 0, [];
    }

    method Emit(kind: EventType, payload: Payload, correlation: string, parent: Option<string>, id: string, now: int)
      returns (event: Event)
      modifies this
      ensures event == HttpEvent(recording, old(sequence), kind, payload, correlation, parent, id, now)
      ensures sequence == old(sequence) + 1 && queue == old(queue) + [Some(event)]
    {
      event := HttpEvent(recording, sequence, kind, payload, correlation, parent, id, now);
      sequence := sequence + 1;
      queue := queue + [Some(event)];
    }

    /** Before the forward. The client's own correlation header wins over a fresh id. */
    method Receive(header: Option<string>, minted: string, payload: Payload, id: string, now: int) returns (captured: Event)
      modifies this
      ensures captured == Event(recording, id, None, old(sequence), now, 0, HttpRequest,
                                if header.Some? then header.value else minted, payload, Extras())
      ensures sequence == old(sequence) + 1 && queue == old(queue) + [Some(captured)]
    {
      var correlation := if header.Some? then header.value else minted;
      captured := Emit(HttpRequest, payload, correlation, None, id, now);
    }

    /** After the forward, whatever came back. */
    method Answer(captured: Event, payload: Payload, id: string, now: int) returns (response: Event)
      modifies this
      ensures response == Event(recording, id, Some(captured.eventId), old(sequence), now, 0, HttpResponse,
                                captured.correlationId, payload, Extras())
      ensures sequence == old(sequence) + 1 && queue == old(queue) + [Some(response)]
    {
      response := Emit(HttpResponse, payload, captured.correlationId, Some(captured.eventId), id, now);
    }

    /** `stop()`, once the handlers are done: unblocks the reader. */
    method Stop()
      modifies `queue
      ensures queue == old(queue) + [None]
    {
      queue := queue + [None];
    }
  }

  /** `Answer` is the step system's Reply: with the counter in step, Reply logs the event that
      Answer emits for the request it belongs to. */
  lemma AnswerIsReply(ls: seq<Label>, r: nat, id: string, payload: Payload, wait: nat)
    requires Legal(ls) && Enabled(Exec(ls), Reply(r, id, payload, wait))
    ensures var s := Exec(ls); var q := s.requests[r]; var t := Apply(s, Reply(r, id, payload, wait));
        && q.sent < |s.http| && s.http[q.sent].kind.HttpRequest? && s.http[q.sent].correlationId == q.correlation
        && t.http == s.http + [Event(q.recording, id, Some(s.http[q.sent].eventId), |Select(RecordingOf, s.http, q.recording)|,
                                     s.clock + wait, 0, HttpResponse, s.http[q.sent].correlationId, payload, Extras())]
        && |Select(RecordingOf, t.http, q.recording)| == |Select(RecordingOf, s.http, q.recording)| + 1
  {
    var s := Exec(ls);
    AlwaysBooked(ls);
    assert HttpBooked(s, s.requests[r].sent);
    SelectAppend(RecordingOf, s.http, Apply(s, Reply(r, id, payload, wait)).http[|s.http|], s.requests[r].recording);
  }
}
