module Completeness {
  // infrareplay/replay/runner.py: a replay that collects when nobody carries its events is complete.

  import opened Sequences
  import opened Events
  import opened Agent
  import opened Traffic
  import opened Flush

  // Anything else may use the target at the same time: other recordings, their requests, their
  // finishing, their broken POSTs. What `run_replay` itself keeps to is its order of steps; what
  // it needs from the others is that none of them carries events of the run when it collects.
  // With the target to itself that is so once its own responses are in (OwnReplayComplete).
  // Overtaking.ForeignFlushRefused and Overtaking.ForeignFlushLate show what happens otherwise,
  // and CollectionExactly that nothing less would do.

  /** The run opens its recording before the first send, collects when its own requests have
      been answered and no flush carries a batch of it, and sends nothing afterwards; ingest is
      up for its events. */
  predicate Disciplined(s: State, run: string, l: Label) {
    match l
    case Start(recording, _, _, _, _) => recording == run ==> run in s.status && run !in s.collected
    case Collect(recording) => recording == run ==> OwnAnswered(s, run) && NoneAboard(s, run)
    case Break(r) => Posting(s, r) ==> CarriesNone(s.requests[r], run)
    case _ => true
  }

  predicate OwnAnswered(s: State, run: string) {
    forall r :: 0 <= r < |s.requests| && s.requests[r].recording == run ==> s.requests[r].phase.Answered?
  }

  predicate NoneAboard(s: State, run: string) {
    forall r :: 0 <= r < |s.requests| ==> CarriesNone(s.requests[r], run)
  }

  /** A run of the whole system with one replay in it. */
  ghost predicate ReplayRun(ls: seq<Label>, run: string) {
    if |ls| == 0 then true
    else
      var init := ls[..|ls| - 1];
      ReplayRun(init, run) && Legal(init) && Disciplined(Exec(init), run, ls[|ls| - 1])
  }

  // ---------------------------------------------------------------- invariant

  predicate CarriesNone(q: Request, run: string) {
    q.phase.Flushing? ==> forall b :: b in q.phase.batches ==> b.recording != run
  }

  ghost predicate NoneOf(es: seq<Event>, run: string) {
    forall e :: e in es ==> e.recordingId != run
  }

  predicate Over(q: Request, run: string) {
    CarriesNone(q, run) && (q.recording == run ==> q.phase.Answered?)
  }

  /** Nothing of the run is on its way to the store, and nothing more will be. */
  ghost predicate Landed(s: State, run: string) {
    NoneOf(s.queue, run) && forall r :: 0 <= r < |s.requests| ==> Over(s.requests[r], run)
  }

  /** The run's sends came after its opening, its completion after its collection, and what it
      collected is what the store holds. */
  ghost predicate Settled(s: State, run: string) {
    && (forall r :: 0 <= r < |s.requests| && s.requests[r].recording == run ==> run in s.status)
    && (run in s.status && s.status[run].Completed? ==> run in s.collected)
    && (run in s.collected ==> Landed(s, run) && run in s.status && s.collected[run] == Select(RecordingOf, s.store, run))
  }

  ghost predicate Complete(s: State, run: string) {
    Settled(s, run) && NoneOf(s.lost, run)
  }

  /** A batch about to be posted comes from a request of its recording. */
  lemma BatchSender(s: State, r: nat) returns (q: nat)
    requires Transport(s) && Posting(s, r)
    ensures q < |s.requests| && s.requests[q].recording == s.requests[r].phase.batches[0].recording
  {
    var b := s.requests[r].phase.batches[0];
    assert b in s.requests[r].phase.batches && OwnBatch(b);
    var e := b.events[0];
    FlightHead(s.requests[r].phase.batches, e);
    assert Carrying(e)(s.requests[r]) > 0;
    SumPositive(Carrying(e), s.requests);
    assert Places(s, e) == Copies(s.sql, e);
    assert e in s.sql;
    var k :| 0 <= k < |s.sql| && s.sql[k] == e;
    assert SqlBooked(s, k);
    q := s.sqlOwner[k];
  }

  lemma DrainedNone(queue: seq<Event>, run: string)
    requires NoneOf(queue, run)
    ensures forall b :: b in Batches(queue) ==> b.recording != run
  {
    forall b | b in Batches(queue) ensures b.recording != run {
      EventsInBatch(queue, b);
      DrainedOwn(queue, b);
      BatchesPartition(queue, b.events[0]);
      SelectMembers(RecordingOf, queue, b.recording);
      assert b.events[0] in queue;
    }
  }

  lemma {:induction false} FlatNone(batches: seq<Batch>, run: string)
    requires forall b :: b in batches ==> OwnBatch(b) && b.recording != run
    ensures NoneOf(FlattenBatches(batches), run)
  {
    if |batches| > 0 {
      FlatNone(batches[1..], run);
    }
  }

  /** A POST of the run never meets a closed recording: completion comes after collection, and
      from then on nobody carries anything of the run. */
  lemma NothingLost(s: State, run: string, l: Label)
    requires Transport(s) && Complete(s, run) && Enabled(s, l) && Disciplined(s, run, l)
    ensures NoneOf(Apply(s, l).lost, run)
  {
    if l.Check? {
      var b := s.requests[l.r].phase.batches[0];
      assert b in s.requests[l.r].phase.batches && OwnBatch(b);
      var q := BatchSender(s, l.r);
    } else if l.Break? {
      FlatNone(s.requests[l.r].phase.batches, run);
    }
  }

  /** A POST takes the first batch off; what is left carries nothing of the run either. */
  lemma OverPosted(s: State, run: string, l: Label)
    requires Enabled(s, l) && (l.Check? || l.Append? || l.Break?) && l.r < |s.requests| && Over(s.requests[l.r], run)
    ensures l.r < |Apply(s, l).requests| && Over(Apply(s, l).requests[l.r], run)
  {
    var batches := s.requests[l.r].phase.batches;
    assert forall b :: b in batches[1..] ==> b in batches;
  }

  lemma OverKept(s: State, run: string, l: Label, r: nat)
    requires Booked(s) && Landed(s, run) && Enabled(s, l) && r < |s.requests|
    ensures r < |Apply(s, l).requests| && Over(Apply(s, l).requests[r], run)
  {
    assert Over(s.requests[r], run);
    if l == Drain(r) {
      DrainedNone(s.queue, run);
    } else if (l.Check? || l.Append? || l.Break?) && l.r == r {
      OverPosted(s, run, l);
    }
  }

  lemma QueueKept(s: State, run: string, l: Label)
    requires Landed(s, run) && Enabled(s, l)
    ensures NoneOf(Apply(s, l).queue, run)
  {
    if l.SqlEnd? {
      assert Over(s.requests[l.r], run);
    }
  }

  lemma LandedStep(s: State, run: string, l: Label)
    requires Booked(s) && Landed(s, run) && run in s.collected && Enabled(s, l) && Disciplined(s, run, l)
    ensures Landed(Apply(s, l), run)
  {
    var t := Apply(s, l);
    QueueKept(s, run, l);
    forall r | 0 <= r < |t.requests| ensures Over(t.requests[r], run) {
      if r < |s.requests| {
        OverKept(s, run, l, r);
      }
    }
  }

  lemma StoreKept(s: State, run: string, l: Label)
    requires BatchesOwn(s) && Landed(s, run) && Enabled(s, l)
    ensures Select(RecordingOf, Apply(s, l).store, run) == Select(RecordingOf, s.store, run)
  {
    if l.Append? {
      var b := s.requests[l.r].phase.batches[0];
      assert b in s.requests[l.r].phase.batches && OwnBatch(b);
      SelectConcat(RecordingOf, s.store, b.events, run);
      SelectNone(RecordingOf, b.events, run);
    }
  }

  /** What waits in the queue belongs to a request that has not been answered. */
  lemma AnsweredQueue(s: State, run: string)
    requires Booked(s) && QueueRunning(s) && OwnAnswered(s, run)
    ensures NoneOf(s.queue, run)
  {
    forall e | e in s.queue ensures e.recordingId != run {
      assert Pending(s, e);
      assert SqlBooked(s, e.sequence);
    }
  }

  lemma AnsweredLanded(s: State, run: string)
    requires Booked(s) && QueueRunning(s) && OwnAnswered(s, run) && NoneAboard(s, run)
    ensures Landed(s, run)
  {
    AnsweredQueue(s, run);
    forall r | 0 <= r < |s.requests| ensures Over(s.requests[r], run) {}
  }

  lemma OpenedStep(s: State, run: string, l: Label)
    requires Settled(s, run) && Enabled(s, l) && Disciplined(s, run, l)
    ensures forall r :: 0 <= r < |Apply(s, l).requests| && Apply(s, l).requests[r].recording == run ==> run in Apply(s, l).status
  {
  }

  lemma CollectedStep(s: State, run: string, l: Label)
    requires Transport(s) && Settled(s, run) && Enabled(s, l) && Disciplined(s, run, l) && run in Apply(s, l).collected
    ensures Landed(Apply(s, l), run) && run in Apply(s, l).status
    ensures Apply(s, l).collected[run] == Select(RecordingOf, Apply(s, l).store, run)
  {
    if run in s.collected {
      LandedStep(s, run, l);
      StoreKept(s, run, l);
    } else {
      AnsweredLanded(s, run);
    }
  }

  lemma SettledStep(s: State, run: string, l: Label)
    requires Transport(s) && Settled(s, run) && Enabled(s, l) && Disciplined(s, run, l)
    ensures Settled(Apply(s, l), run)
  {
    OpenedStep(s, run, l);
    if run in Apply(s, l).collected {
      CollectedStep(s, run, l);
    }
  }

  lemma {:induction false} AlwaysComplete(ls: seq<Label>, run: string)
    requires Legal(ls) && ReplayRun(ls, run)
    ensures Complete(Exec(ls), run)
  {
    if |ls| > 0 {
      var init := ls[..|ls| - 1];
      RunStep(ls);
      AlwaysComplete(init, run);
      AlwaysTransport(init);
      NothingLost(Exec(init), run, ls[|ls| - 1]);
      SettledStep(Exec(init), run, ls[|ls| - 1]);
    }
  }

  lemma NotAboard(batches: seq<Batch>, e: Event)
    requires forall b :: b in batches ==> OwnBatch(b) && b.recording != e.recordingId
    ensures Copies(FlattenBatches(batches), e) == 0
  {
    FlatNone(batches, e.recordingId);
    assert e in FlattenBatches(batches) <==> e in multiset(FlattenBatches(batches));
  }

  lemma AllInStore(s: State, run: string, e: Event)
    requires Transport(s) && Landed(s, run) && NoneOf(s.lost, run) && e.recordingId == run
    ensures Copies(s.store, e) == Copies(s.sql, e)
  {
    forall r | 0 <= r < |s.requests| ensures Carrying(e)(s.requests[r]) == 0 {
      if s.requests[r].phase.Flushing? {
        NotAboard(s.requests[r].phase.batches, e);
      }
    }
    SumPositive(Carrying(e), s.requests);
    assert e in s.queue <==> e in multiset(s.queue);
    assert e in s.lost <==> e in multiset(s.lost);
    assert Places(s, e) == Copies(s.sql, e);
  }

  lemma StoreComplete(s: State, run: string)
    requires Transport(s) && Landed(s, run) && NoneOf(s.lost, run)
    ensures multiset(Select(RecordingOf, s.store, run)) == multiset(Select(RecordingOf, s.sql, run))
  {
    forall e ensures multiset(Select(RecordingOf, s.store, run))[e] == multiset(Select(RecordingOf, s.sql, run))[e] {
      SelectMultiset(RecordingOf, s.store, run, e);
      SelectMultiset(RecordingOf, s.sql, run, e);
      if e.recordingId == run {
        AllInStore(s, run, e);
      }
    }
  }

  /** Replay completeness, whatever else goes on at the target: nothing of the run is ever
      refused or dropped; what it collected is everything its SQL emitted, once each, and
      still is at every later moment, with nothing of it appended since. */
  lemma ReplayCompleteness(ls: seq<Label>, run: string)
    requires Legal(ls) && ReplayRun(ls, run)
    ensures forall e :: e in Exec(ls).lost ==> e.recordingId != run
    ensures run in Exec(ls).collected ==>
        && multiset(Exec(ls).collected[run]) == multiset(Select(RecordingOf, Exec(ls).sql, run))
        && Exec(ls).collected[run] == Select(RecordingOf, Exec(ls).store, run)
  {
    AlwaysComplete(ls, run);
    AlwaysTransport(ls);
    if run in Exec(ls).collected {
      StoreComplete(Exec(ls), run);
    }
  }

  // ------------------------------------------------------- nothing less would do

  lemma AboardMissing(s: State, run: string, r: nat) returns (e: Event)
    requires Transport(s) && r < |s.requests| && !CarriesNone(s.requests[r], run)
    ensures e in s.sql && e.recordingId == run && e !in s.store
  {
    var b :| b in s.requests[r].phase.batches && b.recording == run;
    assert OwnBatch(b);
    e := b.events[0];
    AboardCopies(s.requests[r].phase.batches, b, e);
    assert Carrying(e)(s.requests[r]) > 0;
    SumPositive(Carrying(e), s.requests);
    SqlDistinct(s);
    NoDuplicatesMultiplicity(s.sql, e);
    assert Places(s, e) == Copies(s.sql, e);
    assert e in s.store <==> e in multiset(s.store);
  }

  lemma {:induction false} AboardCopies(batches: seq<Batch>, b: Batch, e: Event)
    requires b in batches && e in b.events
    ensures Copies(FlattenBatches(batches), e) > 0
  {
    FlightHead(batches, e);
    if b == batches[0] {
      assert e in multiset(batches[0].events);
    } else {
      assert batches == [batches[0]] + batches[1..];
      AboardCopies(batches[1..], b, e);
    }
  }

  /** At any moment of any run when the run's own requests have been answered and nothing of it
      is lost, the store holds all its SQL if and only if no flush carries a batch of it. */
  lemma CollectionExactly(ls: seq<Label>, run: string)
    requires Legal(ls) && OwnAnswered(Exec(ls), run) && NoneOf(Exec(ls).lost, run)
    ensures multiset(Select(RecordingOf, Exec(ls).store, run)) == multiset(Select(RecordingOf, Exec(ls).sql, run))
        <==> NoneAboard(Exec(ls), run)
  {
    var s := Exec(ls);
    AlwaysTransport(ls);
    if NoneAboard(s, run) {
      AnsweredLanded(s, run);
      StoreComplete(s, run);
    } else {
      var r :| 0 <= r < |s.requests| && !CarriesNone(s.requests[r], run);
      var e := AboardMissing(s, run, r);
      SelectMembers(RecordingOf, s.sql, run);
      SelectMembers(RecordingOf, s.store, run);
      assert e in multiset(Select(RecordingOf, s.sql, run)) && e !in multiset(Select(RecordingOf, s.store, run));
    }
  }

  // ------------------------------------------------------ the target to itself

  /** What `run_replay` keeps to when nobody else uses the target: all requests are its own, and
      it collects when each has its reply. */
  predicate Undisturbed(s: State, run: string, l: Label) {
    match l
    case Start(recording, _, _, _, _) => recording == run && run in s.status && run !in s.collected
    case Collect(recording) => recording == run ==> forall r :: 0 <= r < |s.requests| ==> s.requests[r].reply.Some?
    case Break(_) => false
    case _ => true
  }

  ghost predicate OwnReplay(ls: seq<Label>, run: string) {
    if |ls| == 0 then true
    else
      var init := ls[..|ls| - 1];
      OwnReplay(init, run) && Legal(init) && Undisturbed(Exec(init), run, ls[|ls| - 1])
  }

  lemma {:induction false} OwnReplayDisciplined(ls: seq<Label>, run: string)
    requires Legal(ls) && OwnReplay(ls, run)
    ensures ReplayRun(ls, run)
    ensures forall r :: 0 <= r < |Exec(ls).requests| ==> Exec(ls).requests[r].recording == run
  {
    if |ls| > 0 {
      var init := ls[..|ls| - 1];
      RunStep(ls);
      OwnReplayDisciplined(init, run);
      AlwaysBooked(init);
    }
  }

  lemma AllOwn(s: State, run: string)
    requires Booked(s) && forall r :: 0 <= r < |s.requests| ==> s.requests[r].recording == run
    ensures forall e :: e in s.sql ==> e.recordingId == run
  {
    forall e | e in s.sql ensures e.recordingId == run {
      var k :| 0 <= k < |s.sql| && s.sql[k] == e;
      assert SqlBooked(s, k);
    }
  }

  /** With the target to itself the replay needs no more than its own replies: what finishing
      reads is every SQL event there was. */
  lemma OwnReplayComplete(ls: seq<Label>, run: string)
    requires Legal(ls) && OwnReplay(ls, run) && run in Exec(ls).collected
    ensures multiset(Exec(ls).collected[run]) == multiset(Exec(ls).sql)
  {
    OwnReplayDisciplined(ls, run);
    ReplayCompleteness(ls, run);
    AlwaysBooked(ls);
    AllOwn(Exec(ls), run);
    SelectAll(RecordingOf, Exec(ls).sql, run);
  }
}
