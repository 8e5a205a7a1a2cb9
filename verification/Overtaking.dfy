/** Where infrareplay/agent/__init__.py fails: one flush overtakes another's response. */
module Overtaking {
  import opened Sequences
  import opened Events
  import opened Agent
  import opened Traffic
  import opened Flush

  lemma RunExtend(ls: seq<Label>, l: Label)
    requires Legal(ls) && Enabled(Exec(ls), l)
    ensures Legal(ls + [l]) && Exec(ls + [l]) == Apply(Exec(ls), l)
  {
    assert (ls + [l])[..|ls|] == ls;
  }

  /** `a` drains what `b` queued, `b` finds the queue empty and answers. */
  function Overtake(a: nat, b: nat, id: string): seq<Label> {
    [Drain(a), Drain(b), Respond(b), Reply(b, id, map[], 0)]
  }

  lemma OvertakenState(ls: seq<Label>, a: nat, b: nat, id: string)
    requires Legal(ls) && Idle(Exec(ls), a) && Idle(Exec(ls), b) && a != b
    requires Exec(ls).requests[b].reply.None? && FreshId(Exec(ls), id)
    ensures Legal(ls + Overtake(a, b, id))
    ensures var s := Exec(ls); var t := Exec(ls + Overtake(a, b, id));
        && t.store == s.store && t.lost == s.lost && t.status == s.status && t.collected == s.collected
        && |t.requests| == |s.requests|
        && t.requests[a] == s.requests[a].(phase := Flushing(Batches(s.queue), false))
        && t.requests[b].phase.Answered? && t.requests[b].reply.Some? && t.requests[b].recording == s.requests[b].recording
  {
    var l1 := ls + [Drain(a)];
    var l2 := l1 + [Drain(b)];
    var l3 := l2 + [Respond(b)];
    RunExtend(ls, Drain(a));
    RunExtend(l1, Drain(b));
    RunExtend(l2, Respond(b));
    RunExtend(l3, Reply(b, id, map[], 0));
    assert ls + Overtake(a, b, id) == l3 + [Reply(b, id, map[], 0)];
    assert Batches([]) == [];
  }

  lemma FlightCounted(requests: seq<Request>, a: nat, e: Event)
    requires a < |requests| && Copies(Flight(requests[a]), e) > 0
    ensures InFlight(requests, e) > 0
  {
    assert Carrying(e)(requests[a]) > 0;
    SumPositive(Carrying(e), requests);
  }

  /** Whenever two captured requests are about to flush and one has SQL queued, its response
      can be recorded although none of that SQL has landed. */
  lemma ResponseOvertakesItsSql(ls: seq<Label>, a: nat, b: nat, id: string, e: Event)
    requires Legal(ls) && Idle(Exec(ls), a) && Idle(Exec(ls), b) && a != b
    requires FreshId(Exec(ls), id) && e in Exec(ls).queue
    requires 0 <= e.sequence < |Exec(ls).sqlOwner| && Exec(ls).sqlOwner[e.sequence] == b
    ensures Legal(ls + Overtake(a, b, id))
    ensures var t := Exec(ls + Overtake(a, b, id));
        && b < |t.requests| && t.requests[b].reply.Some?
        && e in t.sql && e !in t.store && e !in t.lost
  {
    var s := Exec(ls);
    var more := ls + Overtake(a, b, id);
    AlwaysTransport(ls);
    OvertakenState(ls, a, b, id);
    var t := Exec(more);
    assert Pending(s, e);
    BatchesPartition(s.queue, e);
    assert e in multiset(s.queue);
    assert e in multiset(FlattenBatches(Batches(s.queue)));
    assert Flight(t.requests[a]) == FlattenBatches(Batches(s.queue));
    FlightCounted(t.requests, a, e);
    AlwaysTransport(more);
    SqlDistinct(t);
    NoDuplicatesMultiplicity(t.sql, e);
    assert Places(t, e) == Copies(t.sql, e);
    assert e in t.store <==> e in multiset(t.store);
    assert e in t.lost <==> e in multiset(t.lost);
  }

  // ------------------------------------------------------------ a reachable case

  /** Two requests of recordings `ra` and "b"; the second runs one statement. */
  function TwoRequests(ra: string): seq<Label> {
    [OpenRecording("a"), OpenRecording("b"),
     Start(ra, "corr_a", "evt_1", map[], 0), Start("b", "corr_b", "evt_2", map[], 0),
     SqlBegin(1, 1), SqlEnd(1, "evt_3", "evt_4", map[], map[], 1)]
  }

  const QUERY := Event("b", "evt_3", None, 0, 1, 1, PgQuery, "corr_b", map[], Extras())
  const RESULT := Event("b", "evt_4", Some("evt_3"), 1, 2, 0, PgResult, "corr_b", map[], Extras())

  lemma TwoStarted(ra: string)
    ensures Legal(TwoRequests(ra)[..4])
    ensures var s := Exec(TwoRequests(ra)[..4]);
        && s.clock == 0 && s.ids == {"evt_1", "evt_2"} && s.sql == [] && s.sqlOwner == [] && s.queue == [] && s.store == [] && s.lost == []
        && s.requests == [Request(ra, "corr_a", 0, None, Running(None)), Request("b", "corr_b", 1, None, Running(None))]
        && s.status == map["a" := Recording, "b" := Recording] && s.collected == map[]
  {
    var ls := TwoRequests(ra);
    assert Legal([]);
    assert ls[2].id[4] == '1' && ls[3].id[4] == '2';
    RunExtend([], ls[0]);
    assert [] + [ls[0]] == [ls[0]];
    RunExtend([ls[0]], ls[1]);
    assert [ls[0]] + [ls[1]] == [ls[0], ls[1]];
    RunExtend([ls[0], ls[1]], ls[2]);
    assert [ls[0], ls[1]] + [ls[2]] == [ls[0], ls[1], ls[2]];
    RunExtend([ls[0], ls[1], ls[2]], ls[3]);
    assert [ls[0], ls[1], ls[2]] + [ls[3]] == ls[..4];
  }

  lemma TwoQueued(ra: string)
    ensures Legal(TwoRequests(ra))
    ensures var s := Exec(TwoRequests(ra));
        && s.queue == [QUERY, RESULT] && s.sqlOwner == [1, 1] && s.store == [] && s.lost == []
        && s.ids == {"evt_1", "evt_2", "evt_3", "evt_4"}
        && Idle(s, 0) && Idle(s, 1) && |s.requests| == 2
        && s.requests[0].recording == ra && s.requests[0].reply.None?
        && s.requests[1].recording == "b" && s.requests[1].reply.None?
        && s.status == map["a" := Recording, "b" := Recording] && s.collected == map[]
  {
    var ls := TwoRequests(ra);
    TwoStarted(ra);
    RunExtend(ls[..4], ls[4]);
    RunExtend(ls[..4] + [ls[4]], ls[5]);
    assert ls[..4] + [ls[4]] + [ls[5]] == ls;
  }

  /** The promise "a response is never recorded before its database events have landed"
      is false of the code as soon as two requests are in flight. */
  lemma PerResponsePromiseFails()
    ensures var ls := TwoRequests("b") + Overtake(0, 1, "evt_5");
        && Legal(ls)
        && |Exec(ls).requests| == 2 && Exec(ls).requests[1].reply.Some?
        && QUERY in Exec(ls).sql && RESULT in Exec(ls).sql
        && Exec(ls).store == [] && Exec(ls).lost == []
  {
    TwoQueued("b");
    OvertakenState(TwoRequests("b"), 0, 1, "evt_5");
    ResponseOvertakesItsSql(TwoRequests("b"), 0, 1, "evt_5", QUERY);
    ResponseOvertakesItsSql(TwoRequests("b"), 0, 1, "evt_5", RESULT);
  }

  /** Request 0 carries request 1's events to the store while recording "b" is finished. */
  function Late(): seq<Label> {
    TwoRequests("a") + Overtake(0, 1, "evt_5") + [Check(0)] + [Collect("b")]
  }

  lemma LateChecked()
    ensures Legal(Late()) && |Exec(Late()).requests| == 2
    ensures Exec(Late()).requests[0].phase == Flushing([Batch("b", [QUERY, RESULT])], true)
    ensures Exec(Late()).store == [] && Exec(Late()).lost == []
    ensures Exec(Late()).status == map["a" := Recording, "b" := Recording] && Exec(Late()).collected == map["b" := []]
  {
    ForeignFlush();
    var l0 := TwoRequests("a") + Overtake(0, 1, "evt_5");
    RunExtend(l0, Check(0));
    RunExtend(l0 + [Check(0)], Collect("b"));
  }

  /** Why a replay has to collect at a moment when no flush carries its events: with another
      recording's flush under way, a finished recording can be refused its own SQL ... */
  lemma ForeignFlushRefused()
    ensures var ls := TwoRequests("a") + Overtake(0, 1, "evt_5") + [Collect("b")] + [Finish("b")] + [Check(0)];
        && Legal(ls) && Exec(ls).lost == [QUERY, RESULT] && "b" in Exec(ls).collected && Exec(ls).collected["b"] == []
  {
    ForeignFlush();
    var l0 := TwoRequests("a") + Overtake(0, 1, "evt_5");
    RunExtend(l0, Collect("b"));
    RunExtend(l0 + [Collect("b")], Finish("b"));
    RunExtend(l0 + [Collect("b")] + [Finish("b")], Check(0));
  }

  /** ... or have it appended after completion, because check and append are two steps. */
  lemma ForeignFlushLate()
    ensures var ls := Late() + [Finish("b")] + [Append(0)];
        && Legal(ls) && Exec(ls).store == [QUERY, RESULT] && Exec(ls).lost == []
        && Exec(ls).collected == map["b" := []] && Exec(ls).status == map["a" := Recording, "b" := Completed]
  {
    LateChecked();
    RunExtend(Late(), Finish("b"));
    RunExtend(Late() + [Finish("b")], Append(0));
  }

  lemma ForeignFlush()
    ensures var l0 := TwoRequests("a") + Overtake(0, 1, "evt_5");
        && Legal(l0) && |Exec(l0).requests| == 2
        && Exec(l0).requests[0].phase == Flushing([Batch("b", [QUERY, RESULT])], false)
        && Exec(l0).store == [] && Exec(l0).lost == []
        && Exec(l0).status == map["a" := Recording, "b" := Recording] && Exec(l0).collected == map[]
  {
    TwoQueued("a");
    OvertakenState(TwoRequests("a"), 0, 1, "evt_5");
    OneBatch();
  }

  lemma OneBatch()
    ensures Batches([QUERY, RESULT]) == [Batch("b", [QUERY, RESULT])]
  {
    var es := [QUERY, RESULT];
    assert es[..1] == [QUERY];
    assert Keys(RecordingOf, [QUERY]) == ["b"];
    assert Keys(RecordingOf, es) == ["b"];
    SelectAll(RecordingOf, es, "b");
  }
}
