/** infrareplay/capture/session.py with the queue of infrareplay/plugins/http_capture: live
    sessions, their pump into the store, and the ingest door. */
module Sessions {
  import opened Sequences
  import opened Events
  import opened Correlate
  import opened CorrelateLaws
  import opened Comparators
  import opened Redaction
  import opened Recordings

  /** The events waiting in a plugin queue; None is the sentinel that `stop()` drops in. */
  function Waiting(queue: seq<Option<Event>>): seq<Event> {
    if |queue| == 0 then []
    else
      var rest := Waiting(queue[..|queue| - 1]);
      match queue[|queue| - 1]
      case None => rest
      case Some(e) => rest + [e]
  }

  predicate Open(queue: seq<Option<Event>>) {
    forall i :: 0 <= i < |queue| ==> queue[i].Some?
  }

  lemma {:induction false} WaitingHead(queue: seq<Option<Event>>)
    requires |queue| > 0 && queue[0].Some?
    ensures Waiting(queue) == [queue[0].value] + Waiting(queue[1..])
  {
    if |queue| > 1 {
      var init := queue[..|queue| - 1];
      WaitingHead(init);
      assert queue[1..][..|queue| - 2] == init[1..];
    } else {
      assert queue[..0] == [] && queue[1..] == [];
    }
  }

  lemma WaitingMore(queue: seq<Option<Event>>, e: Option<Event>)
    ensures Waiting(queue + [e]) == if e.Some? then Waiting(queue) + [e.value] else Waiting(queue)
  {
    assert (queue + [e])[..|queue|] == queue;
  }

  predicate Sealed(queue: seq<Option<Event>>) {
    |queue| > 0 && queue[|queue| - 1].None? && Open(queue[..|queue| - 1])
  }

  /** A queue between what was emitted and what has been persisted. */
  ghost predicate Flowing(queue: seq<Option<Event>>, registered: bool, emitted: seq<Event>, persisted: seq<Event>) {
    (Open(queue) || (!registered && Sealed(queue))) && emitted == persisted + Waiting(queue)
  }

  lemma EmitFlows(queue: seq<Option<Event>>, registered: bool, emitted: seq<Event>, persisted: seq<Event>, e: Event)
    requires Flowing(queue, registered, emitted, persisted) && Open(queue)
    ensures Flowing(queue + [Some(e)], registered, emitted + [e], persisted) && Open(queue + [Some(e)])
  {
    WaitingMore(queue, Some(e));
    assert persisted + Waiting(queue) + [e] == persisted + (Waiting(queue) + [e]);
  }

  lemma PumpFlows(queue: seq<Option<Event>>, registered: bool, emitted: seq<Event>, persisted: seq<Event>)
    requires Flowing(queue, registered, emitted, persisted) && |queue| > 0 && queue[0].Some?
    ensures Flowing(queue[1..], registered, emitted, persisted + [queue[0].value])
  {
    WaitingHead(queue);
    TailShape(queue);
    assert persisted + ([queue[0].value] + Waiting(queue[1..])) == persisted + [queue[0].value] + Waiting(queue[1..]);
  }

  // ---------------------------------------------------------- what the store holds

  /** The events, redacted and untouched since, are rows of the recording, in order. */
  ghost predicate Stored(events: seq<Event>, id: string, persisted: seq<Event>) {
    Subsequence(Redacted(persisted), Select(RecordingOf, events, id))
  }

  ghost predicate AllStored(events: seq<Event>, ids: set<string>, persisted: map<string, seq<Event>>) {
    ids <= persisted.Keys && forall id :: id in ids ==> Stored(events, id, persisted[id])
  }

  lemma StoredMore(events: seq<Event>, more: seq<Event>, ids: set<string>, persisted: map<string, seq<Event>>)
    requires AllStored(events, ids, persisted)
    ensures AllStored(events + more, ids, persisted)
  {
    forall id | id in ids ensures Stored(events + more, id, persisted[id]) {
      SelectConcat(RecordingOf, events, more, id);
      SubsequenceConcat(Redacted(persisted[id]), Select(RecordingOf, events, id), Select(RecordingOf, more, id));
    }
  }

  lemma StoredNext(events: seq<Event>, id: string, persisted: seq<Event>, e: Event)
    requires Stored(events, id, persisted) && e.recordingId == id
    ensures Stored(events + [Redact(e)], id, persisted + [e])
  {
    SelectAppend(RecordingOf, events, Redact(e), id);
    SubsequencePair(Redacted(persisted), Select(RecordingOf, events, id), Redact(e));
    assert Redacted(persisted) + [Redact(e)] == Redacted(persisted + [e]);
  }

  /** Some row shows `e`: redacted, and otherwise as emitted except for sequence and parent. */
  predicate InRows(rows: seq<Event>, e: Event) {
    Erase(Redact(e)) in MapSeq(Erase, rows)
  }

  /** Correlating the recording's rows loses none of them. */
  lemma StoredShown(events: seq<Event>, id: string, persisted: seq<Event>)
    requires Stored(events, id, persisted)
    ensures forall e :: e in persisted ==> InRows(Correlated(EventsFor(events, id)), e)
  {
    var own, rows := Select(RecordingOf, events, id), EventsFor(events, id);
    SubsequenceMembers(Redacted(persisted), own);
    SortCorrect(SequenceKey, own);
    forall e | e in persisted ensures InRows(Correlated(rows), e) {
      var i :| 0 <= i < |persisted| && persisted[i] == e;
      assert Redacted(persisted)[i] == Redact(e);
      assert Redact(e) in rows;
      var j := OutputOf(rows, Redact(e));
      assert MapSeq(Erase, Correlated(rows))[j] == Erase(Redact(e));
    }
  }

  /** A recording takes one terminal step, and until then it is open. */
  ghost predicate OneTerminalStep(recordings: map<string, Row>, terminal: map<string, nat>) {
    && (forall id :: id in recordings ==> TerminalSteps(terminal, id) == if recordings[id].status.RECORDING? then 0 else 1)
    && (forall id :: id in terminal ==> id in recordings)
  }

  /** A session's recording is open; its queue is sealed only once it is no longer registered;
      its pump has taken what its plugin emitted up to what is still waiting. */
  ghost predicate AllFlowing(recordings: map<string, Row>, live: set<string>, queues: map<string, seq<Option<Event>>>,
                             emitted: map<string, seq<Event>>, persisted: map<string, seq<Event>>) {
    && live <= queues.Keys && emitted.Keys == persisted.Keys && queues.Keys <= emitted.Keys
    && (forall id :: id in queues ==>
          && id in recordings && recordings[id].status.RECORDING?
          && Flowing(queues[id], id in live, emitted[id], persisted[id])
          && OwnEvents(emitted[id], id))
  }

  lemma FlowingOpened(recordings: map<string, Row>, live: set<string>, queues: map<string, seq<Option<Event>>>,
                      emitted: map<string, seq<Event>>, persisted: map<string, seq<Event>>, id: string, row: Row)
    requires AllFlowing(recordings, live, queues, emitted, persisted) && row.status.RECORDING?
    ensures AllFlowing(recordings[id := row], live + {id}, queues[id := []], emitted[id := []], persisted[id := []])
  {
  }

  lemma FlowingPumped(recordings: map<string, Row>, live: set<string>, queues: map<string, seq<Option<Event>>>,
                      emitted: map<string, seq<Event>>, persisted: map<string, seq<Event>>, id: string)
    requires AllFlowing(recordings, live, queues, emitted, persisted)
    requires id in queues && |queues[id]| > 0 && queues[id][0].Some?
    ensures id in emitted && id in persisted && queues[id][0].value.recordingId == id
    ensures AllFlowing(recordings, live, queues[id := queues[id][1..]], emitted, persisted[id := persisted[id] + [queues[id][0].value]])
  {
    PumpFlows(queues[id], id in live, emitted[id], persisted[id]);
    WaitingHead(queues[id]);
    assert emitted[id][|persisted[id]|] == queues[id][0].value;
  }

  lemma FlowingClosed(recordings: map<string, Row>, live: set<string>, queues: map<string, seq<Option<Event>>>,
                      emitted: map<string, seq<Event>>, persisted: map<string, seq<Event>>, id: string, row: Row)
    requires AllFlowing(recordings, live, queues, emitted, persisted)
    requires id in queues && queues[id] == [None] && id !in live
    ensures persisted[id] == emitted[id]
    ensures AllFlowing(recordings[id := row], live, queues - {id}, emitted, persisted)
  {
    WaitingMore([], None);
    assert [] + [None] == queues[id];
  }

  /** Finishing a recording leaves the rows of the others alone. */
  lemma StoredOthers(events: seq<Event>, after: seq<Event>, ids: set<string>, persisted: map<string, seq<Event>>, id: string)
    requires AllStored(events, ids, persisted)
    requires forall other :: other != id ==> Select(RecordingOf, after, other) == Select(RecordingOf, events, other)
    ensures AllStored(after, ids - {id}, persisted)
  {
  }

  lemma RowShown(events: seq<Event>, id: string, e: Event)
    requires Redact(e) in events && e.recordingId == id
    ensures InRows(Correlated(EventsFor(events, id)), e)
  {
    var rows := EventsFor(events, id);
    SelectMembers(RecordingOf, events, id);
    SortCorrect(SequenceKey, Select(RecordingOf, events, id));
    assert Redact(e) in rows;
    var j := OutputOf(rows, Redact(e));
    assert MapSeq(Erase, Correlated(rows))[j] == Erase(Redact(e));
  }

  class Sessions {
    const store: Store
    var live: set<string>                         // _SESSIONS
    var queues: map<string, seq<Option<Event>>>   // the plugin's queue, while a session is open or closing
    ghost var emitted: map<string, seq<Event>>    // per session, what its plugin has emitted ...
    ghost var persisted: map<string, seq<Event>>  // ... and what its pump has stored

    constructor (s: Store)
      requires s.Valid() && s.recordings == map[] && s.terminal == map[]
      ensures store == s && live == {} && queues == map[]
      ensures Valid()
    {
      store, live, queues, emitted, persisted := s, {}, map[], map[], map[];
    }

    ghost predicate Valid()
      reads this, store
    {
      && store.Valid()
      && OneTerminalStep(store.recordings, store.terminal)
      && AllFlowing(store.recordings, live, queues, emitted, persisted)
      && AllStored(store.events, queues.Keys, persisted)
    }

    /** `opens`: the plugin started. A session that fails to open is never registered. */
    method StartSession(id: string, meta: Meta, opens: bool, reason: string) returns (ok: bool)
      requires Valid() && id !in store.recordings   // new_id is fresh
      modifies this, store
      ensures Valid() && ok == opens && store.events == old(store.events)
      ensures id in store.recordings && store.recordings[id].status == if opens then RECORDING else FAILED
      ensures live == if opens then old(live) + {id} else old(live)
      ensures queues == if opens then old(queues)[id := []] else old(queues)
    {
      var _ := store.Start(id, meta);
      if !opens {
        store.Fail(id, reason);
        return false;
      }
      FlowingOpened(old(store.recordings), live, queues, emitted, persisted, id, Row(meta, RECORDING));
      live, queues := live + {id}, queues[id := []];
      emitted, persisted := emitted[id := []], persisted[id := []];
      ok := true;
    }

    /** The proxy's `emit` of an event it stamped with its recording, also from handlers still under way while the session closes. */
    method Emit(id: string, e: Event)
      requires Valid() && id in queues && Open(queues[id]) && e.recordingId == id
      modifies `queues, `emitted
      ensures Valid() && queues == old(queues)[id := old(queues)[id] + [Some(e)]]
      ensures emitted == old(emitted)[id := old(emitted)[id] + [e]]
    {
      EmitFlows(queues[id], id in live, emitted[id], persisted[id], e);
      OwnEventsMore(emitted[id], e, id);
      queues, emitted := queues[id := queues[id] + [Some(e)]], emitted[id := emitted[id] + [e]];
    }

    /** The event that has just been stored leaves the queue. */
    method Dequeue(id: string)
      requires store.Valid() && OneTerminalStep(store.recordings, store.terminal)
      requires AllFlowing(store.recordings, live, queues, emitted, persisted)
      requires id in queues && |queues[id]| > 0 && queues[id][0].Some? && id in persisted
      requires AllStored(store.events, queues.Keys, persisted[id := persisted[id] + [queues[id][0].value]])
      modifies `queues, `persisted
      ensures Valid()
      ensures persisted == old(persisted)[id := old(persisted)[id] + [old(queues)[id][0].value]]
      ensures queues == old(queues)[id := old(queues)[id][1..]]
    {
      FlowingPumped(store.recordings, live, queues, emitted, persisted, id);
      persisted := persisted[id := persisted[id] + [queues[id][0].value]];
      queues := queues[id := queues[id][1..]];
      assert queues.Keys == old(queues.Keys);
    }

    /** One turn of the pump: the oldest waiting event is persisted. */
    method Pump(id: string)
      requires Valid() && id in queues && |queues[id]| > 0 && queues[id][0].Some?
      requires UniqueIds(store.events + Waiting(queues[id]))   // uuid4 is fresh
      modifies `queues, `persisted, store`events
      ensures Valid()
      ensures Waiting(old(queues)[id]) == [old(queues)[id][0].value] + Waiting(old(queues)[id][1..])
      ensures store.events == old(store.events) + [Redact(old(queues)[id][0].value)]
      ensures persisted == old(persisted)[id := old(persisted)[id] + [old(queues)[id][0].value]]
      ensures queues == old(queues)[id := old(queues)[id][1..]]
    {
      var e := queues[id][0].value;
      WaitingHead(queues[id]);
      FlowingPumped(store.recordings, live, queues, emitted, persisted, id);
      FirstPartUnique(store.events, [e], Waiting(queues[id][1..]));
      var _, _ := store.Append([e]);
      assert Redacted([e]) == [Redact(e)];
      PumpStores(old(store.events), queues.Keys, persisted, id, e);
      Dequeue(id);
    }

    /** `_SESSIONS.pop`: a second stop finds no session. */
    method Unregister(id: string) returns (found: bool)
      requires Valid()
      modifies `live
      ensures Valid() && found == (id in old(live)) && live == old(live) - {id}
    {
      found := id in live;
      live := live - {id};
    }

    /** The plugin has stopped, its handlers are done: the sentinel goes in. */
    method Seal(id: string)
      requires Valid() && id in queues && id !in live && Open(queues[id])
      modifies `queues
      ensures Valid() && queues == old(queues)[id := old(queues)[id] + [None]] && Sealed(queues[id])
      ensures Waiting(queues[id]) == Waiting(old(queues)[id])
    {
      WaitingMore(queues[id], None);
      assert (queues[id] + [None])[..|queues[id]|] == queues[id];
      queues := queues[id := queues[id] + [None]];
    }

    /** The pump has met the sentinel: every event emitted is a row of the recording, in the
        order of emission, and only now is the recording completed, with all of them in it. */
    method Complete(id: string) returns (recording: Recording)
      requires Valid() && id in queues && queues[id] == [None] && id !in live
      modifies `queues, store
      ensures Valid() && queues == old(queues) - {id}
      ensures id in emitted
      ensures Stored(old(store.events), id, emitted[id])
      ensures forall e :: e in emitted[id] ==> InRows(recording.events, e)
      ensures recording.status.COMPLETED? && id in store.recordings && store.recordings[id].status.COMPLETED?
      ensures recording.events == Correlated(EventsFor(old(store.events), id)) == EventsFor(store.events, id)
    {
      FlowingClosed(store.recordings, live, queues, emitted, persisted, id, store.recordings[id].(status := COMPLETED));
      StoredShown(store.events, id, emitted[id]);
      var finished := store.Finish(id);
      StoredOthers(old(store.events), store.events, queues.Keys, persisted, id);
      assert (queues - {id}).Keys == queues.Keys - {id};
      recording := finished.value;
      queues := queues - {id};
    }

    /** `stop_session` in one go. */
    method StopSession(id: string) returns (recording: Option<Recording>)
      requires Valid()
      requires id in live ==> Open(queues[id]) && UniqueIds(store.events + Waiting(queues[id]))
      modifies this, store
      ensures Valid()
      ensures id !in old(live) ==>
          recording.None? && live == old(live) && queues == old(queues) && store.recordings == old(store.recordings) && store.events == old(store.events)
      ensures id in old(live) ==>
          var rows := old(store.events) + Redacted(Waiting(old(queues)[id]));
          && live == old(live) - {id}
          && recording.Some? && recording.value.status.COMPLETED?
          && recording.value.events == Correlated(EventsFor(rows, id)) == EventsFor(store.events, id)
          && id in store.recordings && store.recordings[id].status.COMPLETED?
          && (forall e :: e in old(emitted)[id] ==> InRows(recording.value.events, e))
    {
      var found := Unregister(id);
      if !found {
        return None;
      }
      Seal(id);
      PumpOut(id);
      var completed := Complete(id);
      recording := Some(completed);
    }

    /** The pump's last turns, up to the sentinel. */
    method PumpOut(id: string)
      requires Valid() && id in queues && id !in live && Sealed(queues[id])
      requires UniqueIds(store.events + Waiting(queues[id]))
      modifies `queues, `persisted, store`events
      ensures Valid() && id in queues && queues[id] == [None]
      ensures store.events == old(store.events) + Redacted(Waiting(old(queues)[id]))
    {
      ghost var rows := store.events + Redacted(Waiting(queues[id]));
      while queues[id][0].Some?
        invariant Valid() && id in queues && id !in live && Sealed(queues[id])
        invariant UniqueIds(store.events + Waiting(queues[id]))
        invariant store.events + Redacted(Waiting(queues[id])) == rows
        decreases |queues[id]|
      {
        TailShape(queues[id]);
        WaitingHead(queues[id]);
        MovedOver(store.events, queues[id][0].value, Waiting(queues[id][1..]));
        assert Redacted([queues[id][0].value]) == [Redact(queues[id][0].value)];
        Pump(id);
      }
      SealedEmpty(queues[id]);
      assert store.events + [] == store.events;
    }

    /** `append_events` from anywhere: sessions keep what they have stored. */
    method Record(es: seq<Event>) returns (ok: bool)
      requires Valid()
      modifies store`events
      ensures Valid() && ok == UniqueIds(old(store.events) + es)
      ensures store.events == if ok then old(store.events) + Redacted(es) else old(store.events)
    {
      StoredMore(store.events, Redacted(es), queues.Keys, persisted);
      var stored;
      ok, stored := store.Append(es);
    }

    /** `start_recording` for something that is no session. */
    method OpenOther(id: string, meta: Meta)
      requires Valid() && id !in store.recordings
      modifies store`recordings
      ensures Valid() && store.recordings == old(store.recordings)[id := Row(meta, RECORDING)]
    {
      var _ := store.Start(id, meta);
    }

    method FailOther(id: string, reason: string)
      requires Valid() && id in store.recordings && store.recordings[id].status.RECORDING? && id !in queues
      modifies store`recordings, store`terminal
      ensures Valid()
      ensures var meta := old(store.recordings)[id].meta;
          store.recordings == old(store.recordings)[id := Row(meta.(title := meta.title + " (failed: " + reason + ")"), FAILED)]
    {
      store.Fail(id, reason);
    }

    /** `finish_recording` of an open recording that is no session's. */
    method FinishOther(id: string) returns (finished: seq<Event>)
      requires Valid() && id in store.recordings && store.recordings[id].status.RECORDING? && id !in queues
      modifies store`recordings, store`events, store`terminal
      ensures Valid()
      ensures store.recordings == old(store.recordings)[id := old(store.recordings)[id].(status := COMPLETED)]
      ensures finished == Correlated(EventsFor(old(store.events), id)) == EventsFor(store.events, id)
    {
      var recording := store.Finish(id);
      StoredOthers(old(store.events), store.events, queues.Keys, persisted, id);
      finished := recording.value.events;
    }

    /** `get_status`: the first half of ingest, in a transaction of its own. */
    method CheckOpen(id: string) returns (open: bool)
      ensures open == (id in store.recordings && store.recordings[id].status.RECORDING?)
    {
      open := id in store.recordings && store.recordings[id].status.RECORDING?;
    }

    /** The second half: anything may have happened since the check, so the status is not
        looked at again. */
    method Deposit(id: string, es: seq<Event>) returns (ok: bool)
      requires Valid()
      modifies store`events
      ensures Valid() && ok == UniqueIds(old(store.events) + Stamped(id, es))
      ensures store.events == if ok then old(store.events) + Redacted(Stamped(id, es)) else old(store.events)
      ensures ok ==> forall i :: 0 <= i < |es| ==>
          store.events[|old(store.events)| + i] == es[i].(recordingId := id, payload := ScrubPayload(es[i].payload))
    {
      ok := Record(Stamped(id, es));
    }

    /** Events from another process, with nothing between check and append. */
    method Ingest(id: string, es: seq<Event>) returns (ok: bool)
      requires Valid()
      modifies store`events
      ensures Valid()
      ensures ok <==> id in store.recordings && store.recordings[id].status.RECORDING? && UniqueIds(old(store.events) + Stamped(id, es))
      ensures store.events == if ok then old(store.events) + Redacted(Stamped(id, es)) else old(store.events)
    {
      ok := CheckOpen(id);
      if ok {
        ok := Deposit(id, es);
      }
    }
  }

  /** Taking the oldest event leaves the queue as open or sealed as it was. */
  lemma TailShape(queue: seq<Option<Event>>)
    requires |queue| > 0 && queue[0].Some?
    ensures Open(queue) ==> Open(queue[1..])
    ensures Sealed(queue) ==> Sealed(queue[1..])
  {
    if Sealed(queue) {
      assert queue[1..][..|queue| - 2] == queue[..|queue| - 1][1..];
    }
  }

  lemma SealedAt(queue: seq<Option<Event>>, i: nat)
    requires Sealed(queue) && i < |queue| - 1
    ensures queue[i].Some?
  {
    assert queue[..|queue| - 1][i].Some?;
  }

  lemma SealedEmpty(queue: seq<Option<Event>>)
    requires Sealed(queue) && queue[0].None?
    ensures queue == [None] && Waiting(queue) == []
  {
    if |queue| > 1 {
      SealedAt(queue, 0);
    }
    assert queue[..0] == [];
  }

  predicate OwnEvents(es: seq<Event>, id: string) {
    forall i :: 0 <= i < |es| ==> es[i].recordingId == id
  }

  lemma OwnEventsMore(es: seq<Event>, e: Event, id: string)
    requires OwnEvents(es, id) && e.recordingId == id
    ensures OwnEvents(es + [e], id)
  {
  }

  lemma PumpStores(events: seq<Event>, ids: set<string>, persisted: map<string, seq<Event>>, id: string, e: Event)
    requires AllStored(events, ids, persisted) && id in ids && e.recordingId == id
    ensures AllStored(events + [Redact(e)], ids, persisted[id := persisted[id] + [e]])
  {
    StoredMore(events, [Redact(e)], ids, persisted);
    StoredNext(events, id, persisted[id], e);
  }

  function Stamped(id: string, es: seq<Event>): seq<Event> {
    MapSeq((e: Event) => e.(recordingId := id), es)
  }

  lemma FirstPartUnique(a: seq<Event>, b: seq<Event>, c: seq<Event>)
    requires UniqueIds(a + (b + c))
    ensures UniqueIds(a + b)
  {
    assert forall i :: 0 <= i < |a + b| ==> (a + b)[i] == (a + (b + c))[i];
  }

  lemma MovedOver(events: seq<Event>, e: Event, rest: seq<Event>)
    requires UniqueIds(events + ([e] + rest))
    ensures UniqueIds(events + Redacted([e]) + rest)
    ensures events + Redacted([e]) + Redacted(rest) == events + Redacted([e] + rest)
  {
    var a, b := events + ([e] + rest), events + Redacted([e]) + rest;
    assert forall i :: 0 <= i < |a| ==> a[i].eventId == b[i].eventId;
  }
}
