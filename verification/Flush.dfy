/** What the flush protocol guarantees over every interleaving. */
module Flush {
  import opened Sequences
  import opened Events
  import opened Agent
  import opened Traffic

  /** The events a request's flush still carries. */
  function Flight(q: Request): seq<Event> {
    match q.phase
    case Flushing(batches, _) => FlattenBatches(batches)
    case _ => []
  }

  function Copies(es: seq<Event>, e: Event): nat {
    multiset(es)[e]
  }

  function Carrying(e: Event): Request -> nat {
    (q: Request) => Copies(Flight(q), e)
  }

  /** How often `e` is being carried by some flush. */
  function InFlight(requests: seq<Request>, e: Event): nat {
    SumOf(Carrying(e), requests)
  }

  /** In how many places `e` is: the queue, the flushes, the store, or lost. */
  function Places(s: State, e: Event): nat {
    Copies(s.queue, e) + InFlight(s.requests, e) + Copies(s.store, e) + Copies(s.lost, e)
  }

  /** No event is lost sight of, invented or duplicated. */
  ghost predicate Conserved(s: State) {
    forall e :: Places(s, e) == Copies(s.sql, e)
  }

  /** A queued event belongs to a request that has not flushed yet. */
  ghost predicate QueueRunning(s: State) {
    forall e :: e in s.queue ==> Pending(s, e)
  }

  ghost predicate Pending(s: State, e: Event) {
    && 0 <= e.sequence < |s.sql| && e.sequence < |s.sqlOwner| && s.sql[e.sequence] == e
    && s.sqlOwner[e.sequence] < |s.requests|
    && s.requests[s.sqlOwner[e.sequence]].phase.Running?
  }

  /** A batch carries events of its own recording only. */
  ghost predicate BatchesOwn(s: State) {
    forall r, b :: 0 <= r < |s.requests| && s.requests[r].phase.Flushing? && b in s.requests[r].phase.batches ==>
      OwnBatch(b)
  }

  ghost predicate OwnBatch(b: Batch) {
    |b.events| > 0 && forall e :: e in b.events ==> e.recordingId == b.recording
  }

  ghost predicate Transport(s: State) {
    Booked(s) && Conserved(s) && QueueRunning(s) && BatchesOwn(s)
  }

  // ------------------------------------------------------------ preservation

  lemma InFlightUpdate(requests: seq<Request>, r: nat, q: Request, e: Event)
    requires r < |requests|
    ensures InFlight(requests[r := q], e) == InFlight(requests, e) - Copies(Flight(requests[r]), e) + Copies(Flight(q), e)
  {
    SumUpdate(Carrying(e), requests, r, q);
  }

  lemma InFlightAppend(requests: seq<Request>, q: Request, e: Event)
    ensures InFlight(requests + [q], e) == InFlight(requests, e) + Copies(Flight(q), e)
  {
    SumAppend(Carrying(e), requests, q);
  }

  lemma CopiesConcat(a: seq<Event>, b: seq<Event>, e: Event)
    ensures Copies(a + b, e) == Copies(a, e) + Copies(b, e)
  {
  }

  lemma FlightHead(batches: seq<Batch>, e: Event)
    requires |batches| > 0
    ensures Copies(FlattenBatches(batches), e) == Copies(batches[0].events, e) + Copies(FlattenBatches(batches[1..]), e)
  {
  }

  lemma ConservedSql(s: State, l: Label, e: Event)
    requires Places(s, e) == Copies(s.sql, e) && Enabled(s, l) && l.SqlEnd?
    ensures Places(Apply(s, l), e) == Copies(Apply(s, l).sql, e)
  {
    var t := Apply(s, l);
    InFlightUpdate(s.requests, l.r, t.requests[l.r], e);
    var pair := [t.sql[|s.sql|], t.sql[|s.sql| + 1]];
    assert t.sql == s.sql + pair && t.queue == s.queue + pair;
    CopiesConcat(s.sql, pair, e);
    CopiesConcat(s.queue, pair, e);
  }

  lemma ConservedDrain(s: State, l: Label, e: Event)
    requires Places(s, e) == Copies(s.sql, e) && Enabled(s, l) && l.Drain?
    ensures Places(Apply(s, l), e) == Copies(Apply(s, l).sql, e)
  {
    InFlightUpdate(s.requests, l.r, Apply(s, l).requests[l.r], e);
    BatchesPartition(s.queue, e);
  }

  /** A POST takes the first batch of a flush to the store or loses it. */
  lemma ConservedPost(s: State, t: State, r: nat, q: Request, e: Event)
    requires Places(s, e) == Copies(s.sql, e) && Posting(s, r)
    requires t.requests == s.requests[r := q] && t.sql == s.sql && t.queue == s.queue
    requires Flight(q) == FlattenBatches(s.requests[r].phase.batches[1..])
    requires var es := s.requests[r].phase.batches[0].events;
        || (t.store == s.store + es && t.lost == s.lost)
        || (t.store == s.store && t.lost == s.lost + es)
    ensures Places(t, e) == Copies(t.sql, e)
  {
    var batches := s.requests[r].phase.batches;
    InFlightUpdate(s.requests, r, q, e);
    FlightHead(batches, e);
    CopiesConcat(s.lost, batches[0].events, e);
    CopiesConcat(s.store, batches[0].events, e);
  }

  lemma ConservedBreak(s: State, l: Label, e: Event)
    requires Places(s, e) == Copies(s.sql, e) && Enabled(s, l) && l.Break?
    ensures Places(Apply(s, l), e) == Copies(Apply(s, l).sql, e)
  {
    InFlightUpdate(s.requests, l.r, Apply(s, l).requests[l.r], e);
    CopiesConcat(s.lost, FlattenBatches(s.requests[l.r].phase.batches), e);
  }

  lemma ConservedCheck(s: State, l: Label, e: Event)
    requires Places(s, e) == Copies(s.sql, e) && Enabled(s, l) && l.Check?
    ensures Places(Apply(s, l), e) == Copies(Apply(s, l).sql, e)
  {
    var t := Apply(s, l);
    if t.requests[l.r].phase.accepted {
      InFlightUpdate(s.requests, l.r, t.requests[l.r], e);
    } else {
      ConservedPost(s, t, l.r, t.requests[l.r], e);
    }
  }

  lemma ConservedStep(s: State, l: Label, e: Event)
    requires Places(s, e) == Copies(s.sql, e) && Enabled(s, l)
    ensures Places(Apply(s, l), e) == Copies(Apply(s, l).sql, e)
  {
    var t := Apply(s, l);
    if l.Start? {
      InFlightAppend(s.requests, t.requests[|s.requests|], e);
    } else if l.SqlEnd? {
      ConservedSql(s, l, e);
    } else if l.Drain? {
      ConservedDrain(s, l, e);
    } else if l.Check? {
      ConservedCheck(s, l, e);
    } else if l.Append? {
      ConservedPost(s, t, l.r, t.requests[l.r], e);
    } else if l.Break? {
      ConservedBreak(s, l, e);
    } else if l.SqlBegin? || l.Respond? || l.Reply? {
      InFlightUpdate(s.requests, l.r, t.requests[l.r], e);
    }
  }

  lemma PendingKept(s: State, l: Label, e: Event)
    requires Booked(s) && Pending(s, e) && Enabled(s, l) && !l.Drain?
    ensures Pending(Apply(s, l), e)
  {
  }

  lemma PendingNew(s: State, l: Label, e: Event)
    requires Booked(s) && Enabled(s, l) && l.SqlEnd? && e in Apply(s, l).queue && e !in s.queue
    ensures Pending(Apply(s, l), e)
  {
    assert e == Apply(s, l).sql[|s.sql|] || e == Apply(s, l).sql[|s.sql| + 1];
  }

  lemma QueueRunningStep(s: State, l: Label)
    requires Booked(s) && QueueRunning(s) && Enabled(s, l)
    ensures QueueRunning(Apply(s, l))
  {
    if !l.Drain? {
      forall e | e in Apply(s, l).queue ensures Pending(Apply(s, l), e) {
        if e in s.queue {
          PendingKept(s, l, e);
        } else {
          PendingNew(s, l, e);
        }
      }
    }
  }

  lemma BatchesOwnStep(s: State, l: Label)
    requires BatchesOwn(s) && Enabled(s, l)
    ensures BatchesOwn(Apply(s, l))
  {
    var t := Apply(s, l);
    forall r, b | 0 <= r < |t.requests| && t.requests[r].phase.Flushing? && b in t.requests[r].phase.batches
      ensures OwnBatch(b)
    {
      if l == Drain(r) {
        DrainedOwn(s.queue, b);
      } else {
        assert b in s.requests[r].phase.batches;
      }
    }
  }

  lemma DrainedOwn(queue: seq<Event>, b: Batch)
    requires b in Batches(queue)
    ensures OwnBatch(b)
  {
    BatchesPartition(queue, b.events[0]) by {
      EventsInBatch(queue, b);
    }
  }

  lemma EventsInBatch(queue: seq<Event>, b: Batch)
    requires b in Batches(queue)
    ensures |b.events| > 0
  {
    var i :| 0 <= i < |Batches(queue)| && Batches(queue)[i] == b;
    var x := KeysFrom(RecordingOf, queue, Keys(RecordingOf, queue)[i]);
    BatchesPartition(queue, x);
  }

  lemma {:induction false} AlwaysTransport(ls: seq<Label>)
    requires Legal(ls)
    ensures Transport(Exec(ls))
  {
    AlwaysBooked(ls);
    if |ls| > 0 {
      RunStep(ls);
      var s, l := Exec(ls[..|ls| - 1]), ls[|ls| - 1];
      AlwaysTransport(ls[..|ls| - 1]);
      forall e ensures Places(Exec(ls), e) == Copies(Exec(ls).sql, e) {
        ConservedStep(s, l, e);
      }
      QueueRunningStep(s, l);
      BatchesOwnStep(s, l);
    }
  }

  // --------------------------------------------------------------- quiescence

  ghost predicate Quiet(s: State) {
    forall r :: 0 <= r < |s.requests| ==> s.requests[r].phase.Answered?
  }

  lemma NothingInFlight(requests: seq<Request>, e: Event)
    requires forall r :: 0 <= r < |requests| ==> requests[r].phase.Answered?
    ensures InFlight(requests, e) == 0
  {
    SumPositive(Carrying(e), requests);
  }

  /** SQL events are numbered in emission order, so none is emitted twice. */
  lemma SqlDistinct(s: State)
    requires Booked(s)
    ensures NoDuplicates(s.sql)
  {
    forall i, j | 0 <= i < j < |s.sql| ensures s.sql[i] != s.sql[j] {
      assert SqlBooked(s, i) && SqlBooked(s, j);
    }
  }

  /** Over every run: an emitted SQL event is in one place only, a queued one belongs to a
      request still running. */
  lemma OnePlace(ls: seq<Label>, e: Event)
    requires Legal(ls) && e in Exec(ls).sql
    ensures Places(Exec(ls), e) == 1
    ensures e in Exec(ls).queue ==> Pending(Exec(ls), e)
  {
    var s := Exec(ls);
    AlwaysTransport(ls);
    SqlDistinct(s);
    NoDuplicatesMultiplicity(s.sql, e);
    assert Places(s, e) == Copies(s.sql, e);
  }

  /** What the store holds for a recording, read back by sequence. */
  function ReadBack(s: State, recording: string): seq<Event> {
    SortBy(SequenceKey, Select(RecordingOf, s.store, recording))
  }

  lemma QueueMeansRunning(s: State) returns (r: nat)
    requires QueueRunning(s) && s.queue != []
    ensures r < |s.requests| && s.requests[r].phase.Running?
  {
    assert Pending(s, s.queue[0]);
    r := s.sqlOwner[s.queue[0].sequence];
  }

  lemma QuietQueue(s: State)
    requires QueueRunning(s) && Quiet(s)
    ensures s.queue == []
  {
    if s.queue != [] {
      var r := QueueMeansRunning(s);
    }
  }

  /** Quiescence: once every open request has been answered nothing is queued or in flight;
      if nothing was lost, every recording holds each of its events once, and reading them
      back by sequence gives emission order. */
  lemma Quiescence(ls: seq<Label>)
    requires Legal(ls) && Quiet(Exec(ls))
    ensures var s := Exec(ls);
        && s.queue == []
        && multiset(s.sql) == multiset(s.store + s.lost)
        && (s.lost == [] ==> forall recording :: ReadBack(s, recording) == Select(RecordingOf, s.sql, recording))
  {
    var s := Exec(ls);
    AlwaysTransport(ls);
    QuietQueue(s);
    forall e ensures multiset(s.sql)[e] == multiset(s.store + s.lost)[e] {
      NothingInFlight(s.requests, e);
      assert Places(s, e) == Copies(s.sql, e);
      CopiesConcat(s.store, s.lost, e);
    }
    if s.lost == [] {
      assert s.store + s.lost == s.store;
      forall recording ensures ReadBack(s, recording) == Select(RecordingOf, s.sql, recording) {
        ReadBackInOrder(s, recording);
      }
    }
  }

  lemma {:induction false} SelectSorted(s: State, recording: string, n: nat)
    requires Booked(s) && n <= |s.sql|
    ensures Sorted(SequenceKey, Select(RecordingOf, s.sql[..n], recording))
    ensures forall e :: e in Select(RecordingOf, s.sql[..n], recording) ==> 0 <= e.sequence < n && s.sql[e.sequence] == e
  {
    if n > 0 {
      var last := s.sql[n - 1];
      var before := Select(RecordingOf, s.sql[..n - 1], recording);
      SelectSorted(s, recording, n - 1);
      assert s.sql[..n] == s.sql[..n - 1] + [last];
      SelectAppend(RecordingOf, s.sql[..n - 1], last, recording);
      assert SqlBooked(s, n - 1);
      AppendSorted(SequenceKey, before, last);
    }
  }

  lemma ReadBackInOrder(s: State, recording: string)
    requires Booked(s) && multiset(s.store) == multiset(s.sql)
    ensures ReadBack(s, recording) == Select(RecordingOf, s.sql, recording)
  {
    var all := Select(RecordingOf, s.sql, recording);
    SelectSorted(s, recording, |s.sql|);
    assert s.sql[..|s.sql|] == s.sql;
    SelectPermutation(RecordingOf, s.sql, s.store, recording);
    SortPermutation(SequenceKey, all, Select(RecordingOf, s.store, recording));
    SortSorted(SequenceKey, all);
  }

  // ------------------------------------------------------- one response at a time

  lemma CarriedBySomeone(requests: seq<Request>, e: Event) returns (q: nat)
    requires InFlight(requests, e) > 0
    ensures q < |requests| && requests[q].phase.Flushing? && e in Flight(requests[q])
  {
    SumPositive(Carrying(e), requests);
    q :| 0 <= q < |requests| && Carrying(e)(requests[q]) > 0;
    assert e in multiset(Flight(requests[q]));
  }

  /** The app's response to `r` may leave, or has left. */
  predicate Flushed(s: State, r: nat) {
    At(s, r) && !s.requests[r].phase.Running? && (s.requests[r].phase.Flushing? ==> |s.requests[r].phase.batches| == 0)
  }

  /** What a response guarantees: none of its SQL is still queued, and an event of it has
      landed exactly when no other request's flush carries it and it was not lost. */
  lemma ResponseGuarantee(ls: seq<Label>, r: nat, k: nat)
    requires Legal(ls) && Flushed(Exec(ls), r)
    requires k < |Exec(ls).sqlOwner| && Exec(ls).sqlOwner[k] == r
    ensures k < |Exec(ls).sql| && Exec(ls).sql[k] !in Exec(ls).queue
    ensures Exec(ls).sql[k] in Exec(ls).store
        <==> InFlight(Exec(ls).requests, Exec(ls).sql[k]) == 0 && Exec(ls).sql[k] !in Exec(ls).lost
  {
    var s := Exec(ls);
    AlwaysTransport(ls);
    assert SqlBooked(s, k);
    var e := s.sql[k];
    OnePlace(ls, e);
    assert e in s.store <==> e in multiset(s.store);
    assert e in s.lost <==> e in multiset(s.lost);
    assert e in s.queue <==> e in multiset(s.queue);
  }

  /** With no other request between drain and answer, the response does guarantee it. */
  lemma SoloResponseLanded(ls: seq<Label>, r: nat, k: nat)
    requires Legal(ls) && Flushed(Exec(ls), r)
    requires k < |Exec(ls).sqlOwner| && Exec(ls).sqlOwner[k] == r
    requires forall q :: 0 <= q < |Exec(ls).requests| && q != r ==> !Exec(ls).requests[q].phase.Flushing?
    requires Exec(ls).lost == []
    ensures k < |Exec(ls).sql| && Exec(ls).sql[k] in Exec(ls).store
  {
    ResponseGuarantee(ls, r, k);
    assert Flight(Exec(ls).requests[r]) == [];
    if InFlight(Exec(ls).requests, Exec(ls).sql[k]) > 0 {
      var q := CarriedBySomeone(Exec(ls).requests, Exec(ls).sql[k]);
    }
  }
}
