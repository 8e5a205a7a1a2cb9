/** infrareplay/agent/agent.py: the app-side queue, its drain, and the posts of one flush. */
module Agent {
  import opened Sequences
  import opened Events

  /** One POST: the events of one recording. */
  datatype Batch = Batch(recording: string, events: seq<Event>)

  /** What one flush posts: drained events grouped by their recording, first seen first. */
  function Batches(events: seq<Event>): seq<Batch> {
    var ks := Keys(RecordingOf, events);
    seq(|ks|, i requires 0 <= i < |ks| => Batch(ks[i], Select(RecordingOf, events, ks[i])))
  }

  class CaptureAgent {
    var started: bool           // `_stream` is set
    var queue: seq<Event>       // the plugin's asyncio.Queue
    var posted: seq<Batch>      // POSTs that reached the ingest API

    constructor ()
      ensures !started && queue == [] && posted == []
    {
      started, queue, posted := false, [], [];
    }

    method Start()
      modifies this
      ensures started && queue == old(queue) && posted == old(posted)
    {
      started := true;
    }

    /** The SQL listener's `put_nowait` of a query and its result. */
    method Emit(query: Event, result: Event)
      modifies `queue
      ensures queue == old(queue) + [query, result]
    {
      queue := queue + [query];
      queue := queue + [result];
    }

    /** Take what is queued right now; never waits. */
    method Drain() returns (events: seq<Event>)
      modifies `queue
      ensures old(started) ==> events == old(queue) && queue == []
      ensures !old(started) ==> events == [] && queue == old(queue)
    {
      events := [];
      if !started {
        return;
      }
      while |queue| > 0
        invariant started
        invariant events + queue == old(queue)
        decreases |queue|
      {
        events := events + [queue[0]];
        queue := queue[1..];
      }
    }

    /** Post the drained events batch by batch. `reachable` is how many POSTs succeed before
        the first HTTP error; nothing is raised, the rest of the batches is dropped. */
    method Flush(reachable: nat) returns (count: nat)
      modifies `queue, `posted
      ensures old(started) ==> queue == []
      ensures old(started) && reachable >= |Batches(old(queue))| ==>
          posted == old(posted) + Batches(old(queue)) && count == |old(queue)|
      ensures old(started) && reachable < |Batches(old(queue))| ==>
          posted == old(posted) + Batches(old(queue))[..reachable] && count == 0
      ensures !old(started) ==> queue == old(queue) && posted == old(posted) && count == 0
    {
      var events := Drain();
      if |events| == 0 {
        return 0;
      }
      var order, lists := GroupBy(RecordingOf, events);
      ghost var batches := Batches(events);
      for i := 0 to |order|
        invariant i <= reachable
        invariant posted == old(posted) + batches[..i]
        invariant queue == if old(started) then [] else old(queue)
      {
        if i == reachable {
          return 0;
        }
        posted := posted + [Batch(order[i], lists[order[i]])];
      }
      assert batches[..|order|] == batches;
      count := |events|;
    }
  }

  /** Grouping for the POSTs loses, invents and duplicates nothing: each event travels in the
      batch of its own recording, in queue order. */
  lemma BatchesPartition(events: seq<Event>, e: Event)
    ensures multiset(FlattenBatches(Batches(events)))[e] == multiset(events)[e]
    ensures forall b :: b in Batches(events) ==>
        |b.events| > 0 && b.events == Select(RecordingOf, events, b.recording)
    ensures forall b, x :: b in Batches(events) && x in b.events ==> x.recordingId == b.recording
  {
    var ks := Keys(RecordingOf, events);
    forall b | b in Batches(events)
      ensures |b.events| > 0 && b.events == Select(RecordingOf, events, b.recording)
      ensures forall x :: x in b.events ==> x.recordingId == b.recording
    {
      var i :| 0 <= i < |ks| && Batches(events)[i] == b;
      assert ks[i] in ks;
      var x := KeysFrom(RecordingOf, events, ks[i]);
      SelectMembers(RecordingOf, events, ks[i]);
      assert x in b.events;
    }
    KeysDistinct(RecordingOf, events);
    FlattenBatchesCount(events, ks, Batches(events), e);
    if e in events {
      KeysContain(RecordingOf, events, e);
    }
  }

  /** `id` appears in `events` before `other` does. */
  ghost predicate SeenBefore(events: seq<Event>, id: string, other: string) {
    exists p :: 0 <= p < |events| && events[p].recordingId == id && forall q :: 0 <= q <= p ==> events[q].recordingId != other
  }

  lemma {:induction false} KeysInOrder(events: seq<Event>, i: nat, j: nat)
    requires i < j < |Keys(RecordingOf, events)|
    ensures SeenBefore(events, Keys(RecordingOf, events)[i], Keys(RecordingOf, events)[j])
  {
    var init := events[..|events| - 1];
    if j < |Keys(RecordingOf, init)| {
      KeysInOrder(init, i, j);
      var a, b := Keys(RecordingOf, init)[i], Keys(RecordingOf, init)[j];
      var p :| 0 <= p < |init| && init[p].recordingId == a && forall q :: 0 <= q <= p ==> init[q].recordingId != b;
      assert events[p].recordingId == a && forall q :: 0 <= q <= p ==> events[q] == init[q];
    } else {
      var a := Keys(RecordingOf, init)[i];
      var x := KeysFrom(RecordingOf, init, a);
      var p :| 0 <= p < |init| && init[p] == x;
      forall q | 0 <= q <= p ensures events[q].recordingId != Keys(RecordingOf, events)[j] {
        assert init[q] in init;
        KeysContain(RecordingOf, init, init[q]);
      }
      assert events[p].recordingId == a;
    }
  }

  /** The batches go out in the order in which their recordings were first seen. */
  lemma BatchesInOrder(events: seq<Event>, i: nat, j: nat)
    requires i < j < |Batches(events)|
    ensures SeenBefore(events, Batches(events)[i].recording, Batches(events)[j].recording)
  {
    KeysInOrder(events, i, j);
  }

  function FlattenBatches(bs: seq<Batch>): seq<Event> {
    if |bs| == 0 then [] else bs[0].events + FlattenBatches(bs[1..])
  }

  lemma {:induction false} FlattenBatchesCount(events: seq<Event>, ks: seq<string>, bs: seq<Batch>, e: Event)
    requires NoDuplicates(ks) && |bs| == |ks|
    requires forall i :: 0 <= i < |ks| ==> bs[i] == Batch(ks[i], Select(RecordingOf, events, ks[i]))
    ensures multiset(FlattenBatches(bs))[e] == if e.recordingId in ks then multiset(events)[e] else 0
  {
    if |ks| > 0 {
      FlattenBatchesCount(events, ks[1..], bs[1..], e);
      SelectMultiset(RecordingOf, events, ks[0], e);
      assert ks == [ks[0]] + ks[1..];
    }
  }
}
