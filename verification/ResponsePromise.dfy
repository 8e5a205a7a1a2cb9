/** Exactly when a response can be relied on to follow its database events. */
module ResponsePromise {
  import opened Sequences
  import opened Events
  import opened Agent
  import opened Traffic
  import opened Flush
  import opened Overtaking

  // The question is asked before the response: request `r` has emitted SQL and is about to
  // flush. Whatever happens next, short of a new request arriving or an event being lost, has
  // the event landed when the response may leave?

  predicate NoStart(ls: seq<Label>) {
    forall i :: 0 <= i < |ls| ==> !ls[i].Start?
  }

  /** `more` takes the run to where the response to `r` may leave, without losing `e`. */
  ghost predicate Responds(ls: seq<Label>, more: seq<Label>, r: nat, e: Event) {
    Legal(ls + more) && NoStart(more) && Flushed(Exec(ls + more), r) && e !in Exec(ls + more).lost
  }

  /** On every such way, the event has landed. */
  ghost predicate Promised(ls: seq<Label>, r: nat, e: Event) {
    forall more :: Responds(ls, more, r, e) ==> e in Exec(ls + more).store
  }

  /** `r` is the only request still running. */
  predicate SoleRunner(s: State, r: nat) {
    forall q :: 0 <= q < |s.requests| && q != r ==> !s.requests[q].phase.Running?
  }

  predicate Owns(s: State, r: nat, e: Event) {
    0 <= e.sequence < |s.sqlOwner| && s.sqlOwner[e.sequence] == r && e in s.sql
  }

  // ------------------------------------------------------ nobody else can take it

  /** Nobody but `r` runs or carries `e`. */
  ghost predicate InOwnHands(s: State, r: nat, e: Event) {
    && Owns(s, r, e) && SoleRunner(s, r)
    && forall q :: 0 <= q < |s.requests| && q != r ==> Copies(Flight(s.requests[q]), e) == 0
  }

  /** A flush under way only ever gets shorter. */
  lemma FlightShrinks(s: State, l: Label, q: nat, e: Event)
    requires Enabled(s, l) && !l.Start? && q < |s.requests| && !s.requests[q].phase.Running?
    ensures q < |Apply(s, l).requests| && !Apply(s, l).requests[q].phase.Running?
    ensures Copies(Flight(Apply(s, l).requests[q]), e) <= Copies(Flight(s.requests[q]), e)
  {
    if (l.Check? || l.Append?) && l.r == q {
      FlightHead(s.requests[q].phase.batches, e);
    }
  }

  lemma OwnershipKept(s: State, l: Label, r: nat, e: Event)
    requires Booked(s) && Enabled(s, l) && Owns(s, r, e)
    ensures Owns(Apply(s, l), r, e)
  {
  }

  lemma InOwnHandsStep(s: State, l: Label, r: nat, e: Event)
    requires Booked(s) && Enabled(s, l) && !l.Start? && InOwnHands(s, r, e)
    ensures InOwnHands(Apply(s, l), r, e)
  {
    OwnershipKept(s, l, r, e);
    forall q | 0 <= q < |s.requests| && q != r
      ensures q < |Apply(s, l).requests| && !Apply(s, l).requests[q].phase.Running?
      ensures Copies(Flight(Apply(s, l).requests[q]), e) == 0
    {
      FlightShrinks(s, l, q, e);
    }
  }

  lemma {:induction false} StaysInOwnHands(ls: seq<Label>, more: seq<Label>, r: nat, e: Event)
    requires Legal(ls + more) && NoStart(more) && Legal(ls) && InOwnHands(Exec(ls), r, e)
    ensures InOwnHands(Exec(ls + more), r, e)
  {
    if |more| == 0 {
      assert ls + more == ls;
    } else {
      var init := more[..|more| - 1];
      assert (ls + more)[..|ls + more| - 1] == ls + init;
      RunStep(ls + more);
      StaysInOwnHands(ls, init, r, e);
      AlwaysBooked(ls + init);
      InOwnHandsStep(Exec(ls + init), more[|more| - 1], r, e);
    }
  }

  lemma QueuedInOwnHands(ls: seq<Label>, r: nat, e: Event)
    requires Legal(ls) && Idle(Exec(ls), r) && e in Exec(ls).queue && Owns(Exec(ls), r, e) && SoleRunner(Exec(ls), r)
    ensures InOwnHands(Exec(ls), r, e)
  {
    var s := Exec(ls);
    OnePlace(ls, e);
    assert e in multiset(s.queue);
    assert InFlight(s.requests, e) == 0;
    SumPositive(Carrying(e), s.requests);
  }

  lemma OwnHandsDeliver(ls: seq<Label>, r: nat, e: Event)
    requires Legal(ls) && InOwnHands(Exec(ls), r, e) && Flushed(Exec(ls), r) && e !in Exec(ls).lost
    ensures e in Exec(ls).store
  {
    var s := Exec(ls);
    OnePlace(ls, e);
    assert Flight(s.requests[r]) == [];
    assert forall q :: 0 <= q < |s.requests| ==> Carrying(e)(s.requests[q]) == 0;
    SumPositive(Carrying(e), s.requests);
    assert e in s.lost <==> e in multiset(s.lost);
    assert e in s.queue <==> e in multiset(s.queue);
    assert e in s.store <==> e in multiset(s.store);
  }

  // --------------------------------------------------------- somebody else can take it

  lemma {:induction false} LongestId(ids: set<string>) returns (n: nat)
    ensures forall id :: id in ids ==> |id| <= n
  {
    if ids == {} {
      n := 0;
    } else {
      var id :| id in ids;
      n := LongestId(ids - {id});
      n := if |id| > n then |id| else n;
    }
  }

  /** There is always another id. */
  lemma AnotherId(ids: set<string>) returns (id: string)
    ensures id != "" && id !in ids
  {
    var n := LongestId(ids);
    id := seq(n + 1, i => 'x');
    assert |id| == n + 1;
  }

  /** `q` takes `r`'s event along; `r` finds the queue empty and answers. */
  lemma TakenAlong(ls: seq<Label>, q: nat, r: nat, e: Event)
    requires Legal(ls) && Idle(Exec(ls), q) && Idle(Exec(ls), r) && q != r && e in Exec(ls).queue
    ensures Responds(ls, [Drain(q), Drain(r), Respond(r)], r, e)
    ensures e !in Exec(ls + [Drain(q), Drain(r), Respond(r)]).store
  {
    var l1 := ls + [Drain(q)];
    var l2 := l1 + [Drain(r)];
    var l3 := l2 + [Respond(r)];
    RunExtend(ls, Drain(q));
    RunExtend(l1, Drain(r));
    assert Batches([]) == [];
    RunExtend(l2, Respond(r));
    assert ls + [Drain(q), Drain(r), Respond(r)] == l3;
    CarriedAway(ls, l3, q, e);
  }

  lemma CarriedAway(ls: seq<Label>, more: seq<Label>, q: nat, e: Event)
    requires Legal(ls) && Legal(more) && e in Exec(ls).queue
    requires Exec(more).sql == Exec(ls).sql && q < |Exec(more).requests|
    requires Flight(Exec(more).requests[q]) == FlattenBatches(Batches(Exec(ls).queue))
    ensures e !in Exec(more).store && e !in Exec(more).lost
  {
    var s, t := Exec(ls), Exec(more);
    AlwaysTransport(ls);
    assert Pending(s, e);
    BatchesPartition(s.queue, e);
    assert e in multiset(s.queue);
    FlightCounted(t.requests, q, e);
    OnePlace(more, e);
    assert e in t.store <==> e in multiset(t.store);
    assert e in t.lost <==> e in multiset(t.lost);
  }

  /** A running request can finish its statement. */
  lemma StatementEnds(ls: seq<Label>, q: nat, r: nat, e: Event) returns (l: Label)
    requires Legal(ls) && q < |Exec(ls).requests| && Exec(ls).requests[q].phase.Running? && !Idle(Exec(ls), q)
    requires Idle(Exec(ls), r) && q != r && e in Exec(ls).queue
    ensures !l.Start? && Enabled(Exec(ls), l) && Legal(ls + [l])
    ensures Idle(Exec(ls + [l]), q) && Idle(Exec(ls + [l]), r) && e in Exec(ls + [l]).queue
  {
    var s := Exec(ls);
    var qid := AnotherId(s.ids);
    var rid := AnotherId(s.ids + {qid});
    l := SqlEnd(q, qid, rid, map[], map[], 0);
    RunExtend(ls, l);
  }

  lemma SomebodyTakesIt(ls: seq<Label>, q: nat, r: nat, e: Event) returns (more: seq<Label>)
    requires Legal(ls) && q < |Exec(ls).requests| && Exec(ls).requests[q].phase.Running? && q != r
    requires Idle(Exec(ls), r) && e in Exec(ls).queue
    ensures Responds(ls, more, r, e) && e !in Exec(ls + more).store
  {
    more := [Drain(q), Drain(r), Respond(r)];
    if Idle(Exec(ls), q) {
      TakenAlong(ls, q, r, e);
    } else {
      var l := StatementEnds(ls, q, r, e);
      TakenAlong(ls + [l], q, r, e);
      assert ls + ([l] + more) == ls + [l] + more;
      more := [l] + more;
    }
  }

  lemma QueuedPromise(ls: seq<Label>, r: nat, e: Event)
    requires Legal(ls) && Idle(Exec(ls), r) && e in Exec(ls).queue && Owns(Exec(ls), r, e)
    ensures Promised(ls, r, e) <==> SoleRunner(Exec(ls), r)
  {
    if SoleRunner(Exec(ls), r) {
      QueuedInOwnHands(ls, r, e);
      forall more | Responds(ls, more, r, e) ensures e in Exec(ls + more).store {
        StaysInOwnHands(ls, more, r, e);
        OwnHandsDeliver(ls + more, r, e);
      }
    } else {
      var q :| 0 <= q < |Exec(ls).requests| && q != r && Exec(ls).requests[q].phase.Running?;
      var more := SomebodyTakesIt(ls, q, r, e);
    }
  }

  // ------------------------------------------------------ settled, or already gone

  /** What has landed stays landed, and what is lost stays lost. */
  lemma {:induction false} SettledStays(ls: seq<Label>, more: seq<Label>, e: Event)
    requires Legal(ls) && Legal(ls + more)
    ensures e in Exec(ls).store ==> e in Exec(ls + more).store
    ensures e in Exec(ls).lost ==> e in Exec(ls + more).lost
  {
    if |more| == 0 {
      assert ls + more == ls;
    } else {
      var init := more[..|more| - 1];
      assert (ls + more)[..|ls + more| - 1] == ls + init;
      RunStep(ls + more);
      SettledStays(ls, init, e);
    }
  }

  /** `r` drains what is queued and drops it on an HTTP error, while `q` keeps carrying `e`. */
  lemma AnswersMeanwhile(ls: seq<Label>, q: nat, r: nat, e: Event) returns (more: seq<Label>)
    requires Legal(ls) && Idle(Exec(ls), r) && q != r && q < |Exec(ls).requests|
    requires e in Exec(ls).sql && Copies(Flight(Exec(ls).requests[q]), e) > 0
    ensures Responds(ls, more, r, e) && e !in Exec(ls + more).store
  {
    more := [Drain(r)];
    RunExtend(ls, Drain(r));
    if |Batches(Exec(ls).queue)| > 0 {
      RunExtend(ls + [Drain(r)], Break(r));
      assert ls + [Drain(r), Break(r)] == ls + [Drain(r)] + [Break(r)];
      more := [Drain(r), Break(r)];
    }
    var t := Exec(ls + more);
    assert t.requests[q] == Exec(ls).requests[q];
    FlightCounted(t.requests, q, e);
    OnePlace(ls + more, e);
    assert e in t.store <==> e in multiset(t.store);
    assert e in t.lost <==> e in multiset(t.lost);
  }

  lemma CarriedPromise(ls: seq<Label>, r: nat, e: Event)
    requires Legal(ls) && Idle(Exec(ls), r) && Owns(Exec(ls), r, e) && InFlight(Exec(ls).requests, e) > 0
    ensures !Promised(ls, r, e)
  {
    var q := CarriedBySomeone(Exec(ls).requests, e);
    assert e in multiset(Flight(Exec(ls).requests[q]));
    var more := AnswersMeanwhile(ls, q, r, e);
  }

  /** The per-response promise, exactly. With `r` about to flush, and any event of it: every
      way on without a new request has the event in the store by the time the response may
      leave, unless it is lost, if and only if it is there already, or lost already, or it is
      still queued and no other request is running. An event that another flush has taken
      along is never promised. */
  lemma ResponsePromiseExactly(ls: seq<Label>, r: nat, e: Event)
    requires Legal(ls) && Idle(Exec(ls), r) && Owns(Exec(ls), r, e)
    ensures var s := Exec(ls);
        Promised(ls, r, e) <==> e in s.store || e in s.lost || (e in s.queue && SoleRunner(s, r))
  {
    var s := Exec(ls);
    OnePlace(ls, e);
    assert e in s.store <==> e in multiset(s.store);
    assert e in s.lost <==> e in multiset(s.lost);
    assert e in s.queue <==> e in multiset(s.queue);
    if e in s.queue {
      QueuedPromise(ls, r, e);
    } else if e in s.store || e in s.lost {
      forall more | Responds(ls, more, r, e) ensures e in Exec(ls + more).store {
        SettledStays(ls, more, e);
      }
    } else {
      CarriedPromise(ls, r, e);
    }
  }
}
