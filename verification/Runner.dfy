/** infrareplay/replay/runner.py: one replay from opening its recording to the saved report. */
module Runner {
  import opened Sequences
  import opened Events
  import opened Correlate
  import opened Linking
  import opened LinkingLaws
  import opened Comparison
  import opened ComparisonLaws
  import opened Recordings
  import opened Sessions

  datatype RunReport = RunReport(links: map<string, string>, results: seq<ComparisonResult>, summary: map<Category, nat>)

  /** The counter dict: every category present, counts as found. */
  method Summarise(results: seq<ComparisonResult>) returns (summary: map<Category, nat>)
    ensures forall c :: c in summary && summary[c] == CategoryCount(results, c)
  {
    summary := map[MATCH := 0, DIFFERENT := 0, MISSING := 0, NEW := 0, ERROR := 0];
    forall c: Category ensures c in summary && summary[c] == 0 {
      match c
      case MATCH => case DIFFERENT => case MISSING => case NEW => case ERROR =>
    }
    for i := 0 to |results|
      invariant forall c :: c in summary && summary[c] == CategoryCount(results[..i], c)
    {
      assert results[..i + 1][..i] == results[..i];
      summary := summary[results[i].category := summary[results[i].category] + 1];
    }
    assert results[..|results|] == results;
  }

  /** What the finished run holds: what the target streamed in, then the replayed pairs. */
  function RunRows(events: seq<Event>, run: string, streamed: seq<Event>, replayed: seq<Event>): seq<Event> {
    events + Redacted(Stamped(run, streamed)) + Redacted(replayed)
  }

  /** Whatever was streamed in or replayed is in the finished run. */
  lemma RunShown(events: seq<Event>, run: string, streamed: seq<Event>, replayed: seq<Event>)
    ensures var finished := Correlated(EventsFor(RunRows(events, run, streamed, replayed), run));
        && (forall e :: e in replayed && e.recordingId == run ==> InRows(finished, e))
        && (forall e :: e in streamed ==> InRows(finished, e.(recordingId := run)))
  {
    var rows := RunRows(events, run, streamed, replayed);
    forall e | e in replayed && e.recordingId == run ensures InRows(Correlated(EventsFor(rows, run)), e) {
      var i :| 0 <= i < |replayed| && replayed[i] == e;
      assert Redacted(replayed)[i] in rows;
      RowShown(rows, run, e);
    }
    forall e | e in streamed ensures InRows(Correlated(EventsFor(rows, run)), e.(recordingId := run)) {
      var i :| 0 <= i < |streamed| && streamed[i] == e;
      assert Redacted(Stamped(run, streamed))[i] in rows;
      RowShown(rows, run, e.(recordingId := run));
    }
  }

  /** Store the replayed pairs of an open run and complete it. */
  method FinishRun(sessions: Sessions, run: string, replayed: seq<Event>) returns (finished: seq<Event>)
    requires sessions.Valid() && run !in sessions.queues
    requires run in sessions.store.recordings && sessions.store.recordings[run].status.RECORDING?
    requires UniqueIds(sessions.store.events + replayed)
    modifies sessions.store`recordings, sessions.store`events, sessions.store`terminal
    ensures sessions.Valid()
    ensures sessions.store.recordings == old(sessions.store.recordings)[run := old(sessions.store.recordings)[run].(status := COMPLETED)]
    ensures finished == Correlated(EventsFor(old(sessions.store.events) + Redacted(replayed), run)) == EventsFor(sessions.store.events, run)
  {
    var _ := sessions.Record(replayed);
    finished := sessions.FinishOther(run);
  }

  /** Open the run's recording and let the target stream into it. */
  method OpenRun(sessions: Sessions, run: string, meta: Meta, streamed: seq<Event>)
    requires sessions.Valid() && run !in sessions.store.recordings
    requires UniqueIds(sessions.store.events + Stamped(run, streamed))
    modifies sessions.store`recordings, sessions.store`events
    ensures sessions.Valid()
    ensures sessions.store.recordings == old(sessions.store.recordings)[run := Row(meta, RECORDING)]
    ensures sessions.store.events == old(sessions.store.events) + Redacted(Stamped(run, streamed))
  {
    sessions.OpenOther(run, meta);
    var _ := sessions.Ingest(run, streamed);
  }

  /** Open the run's recording, let the target stream into it, store the replayed pairs and
      finish; or fail it when the engine raised. */
  method RecordRun(sessions: Sessions, run: string, meta: Meta, streamed: seq<Event>, replayed: Option<seq<Event>>, reason: string)
    returns (finished: Option<seq<Event>>)
    requires sessions.Valid() && run !in sessions.store.recordings
    requires UniqueIds(sessions.store.events + Stamped(run, streamed) + (if replayed.Some? then replayed.value else []))
    modifies sessions.store
    ensures sessions.Valid()
    ensures finished.Some? <==> replayed.Some?
    ensures sessions.store.sources == old(sessions.store.sources) && sessions.store.comparisons == old(sessions.store.comparisons)
    ensures run in sessions.store.recordings
    ensures sessions.store.recordings == old(sessions.store.recordings)[run :=
        if replayed.Some? then Row(meta, COMPLETED) else Row(meta.(title := meta.title + " (failed: " + reason + ")"), FAILED)]
    ensures finished.Some? ==>
        && finished.value == Correlated(EventsFor(RunRows(old(sessions.store.events), run, streamed, replayed.value), run))
        && EventsFor(sessions.store.events, run) == finished.value
  {
    AppendFirst(sessions.store.events, Stamped(run, streamed), if replayed.Some? then replayed.value else []);
    OpenRun(sessions, run, meta, streamed);
    if replayed.None? {
      sessions.FailOther(run, reason);
      RowReplaced(old(sessions.store.recordings), run, Row(meta, RECORDING), sessions.store.recordings[run]);
      return None;
    }
    AppendSecond(old(sessions.store.events), Stamped(run, streamed), replayed.value);
    var events := FinishRun(sessions, run, replayed.value);
    RowReplaced(old(sessions.store.recordings), run, Row(meta, RECORDING), Row(meta, COMPLETED));
    finished := Some(events);
  }

  lemma RowReplaced(recordings: map<string, Row>, run: string, first: Row, second: Row)
    ensures recordings[run := first][run := second] == recordings[run := second]
  {
  }

  /** The links in the order in which `link_streams` enters them. */
  function DictOrder(so: seq<Event>, links: map<string, string>): (order: seq<string>)
    ensures forall o :: o in order <==> o in links && exists i :: 0 <= i < |so| && so[i].eventId == o
  {
    if |so| == 0 then []
    else
      var init, last := so[..|so| - 1], so[|so| - 1];
      var rest := DictOrder(init, links);
      assert forall i :: 0 <= i < |init| ==> init[i] == so[i];
      if last.eventId in links then rest + [last.eventId] else rest
  }

  lemma {:induction false} LastIndex(order: seq<string>, o: string) returns (i: nat)
    requires o in order
    ensures i < |order| && order[i] == o && forall j :: i < j < |order| ==> order[j] != o
  {
    var n := |order| - 1;
    if order[n] == o {
      i := n;
    } else {
      assert order == order[..n] + [order[n]];
      i := LastIndex(order[..n], o);
    }
  }

  lemma LinkOrdered(source: seq<Event>, finished: seq<Event>, o: string)
    requires UniqueIds(source) && UniqueIds(finished) && o in Links(source, finished)
    ensures o in DictOrder(InOrder(source), Links(source, finished))
  {
    var sig, a, b := LinkPair(source, finished, o);
    InOrderMembers(source);
    assert a in InOrder(source);
  }

  /** Link the finished run to its source, save the links, compare, save the rows and count. */
  method Assess(store: Store, run: string, source: seq<Event>, finished: seq<Event>, ignore: set<string>) returns (report: RunReport)
    requires UniqueIds(source) && UniqueIds(finished)
    modifies store`sources, store`comparisons
    ensures store.comparisons == old(store.comparisons) + ComparisonRows(run, report.results)
    ensures report.links == Links(source, finished)
    ensures report.results == Report(ignore, source, finished)
    ensures forall c :: c in report.summary && report.summary[c] == CategoryCount(report.results, c)
    ensures forall o :: o in report.links && Taken(store.events, report.links[o]) ==>
        report.links[o] in store.sources && store.sources[report.links[o]] == o
  {
    var links := LinkStreams(source, finished);
    var order := DictOrder(InOrder(source), links);
    store.LinkReplayEvents(order, links);
    forall o | o in links && Taken(store.events, links[o]) ensures links[o] in store.sources && store.sources[links[o]] == o {
      LinkOrdered(source, finished, o);
      var i := LastIndex(order, o);
      forall j | i < j < |order| ensures links[order[j]] != links[order[i]] {
        if links[order[j]] == links[o] {
          LinksInjective(source, finished, o, order[j]);
        }
      }
      assert LastOne(order, links, i, |order|);
    }
    var results := CompareRun(ignore, source, finished, links);
    store.SaveComparison(run, results);
    var summary := Summarise(results);
    report := RunReport(links, results, summary);
  }

  /** `safe`: the target may be replayed against. `streamed`: SQL the target posted while the
      sends were in flight. `replayed`: the pairs the engine returned, None if it refused. */
  method RunReplay(sessions: Sessions, sourceId: string, run: string, meta: Meta, safe: bool, ignore: set<string>,
                   streamed: seq<Event>, replayed: Option<seq<Event>>, reason: string)
    returns (report: Option<RunReport>)
    requires sessions.Valid() && run !in sessions.store.recordings   // new_id is fresh
    requires UniqueIds(sessions.store.events + Stamped(run, streamed) + (if replayed.Some? then replayed.value else []))
    modifies sessions.store
    ensures sessions.Valid()
    ensures report.Some? <==> safe && sourceId in old(sessions.store.recordings) && replayed.Some?
    ensures !safe || sourceId !in old(sessions.store.recordings) ==>
        && sessions.store.recordings == old(sessions.store.recordings) && sessions.store.events == old(sessions.store.events)
        && sessions.store.sources == old(sessions.store.sources) && sessions.store.comparisons == old(sessions.store.comparisons)
    ensures sessions.store.comparisons == old(sessions.store.comparisons) + if report.Some? then ComparisonRows(run, report.value.results) else []
    ensures safe && sourceId in old(sessions.store.recordings) ==>
        && run in sessions.store.recordings
        && sessions.store.recordings == old(sessions.store.recordings)[run :=
             if replayed.Some? then Row(meta, COMPLETED) else Row(meta.(title := meta.title + " (failed: " + reason + ")"), FAILED)]
    ensures report.Some? ==>
        var source := EventsFor(old(sessions.store.events), sourceId);
        var finished := Correlated(EventsFor(RunRows(old(sessions.store.events), run, streamed, replayed.value), run));
        && report.value.links == Links(source, finished)
        && report.value.results == Report(ignore, source, finished)
        && (forall c :: c in report.value.summary && report.value.summary[c] == CategoryCount(report.value.results, c))
        && EventsFor(sessions.store.events, run) == finished
  {
    if !safe {
      return None;
    }
    var source := sessions.store.Get(sourceId);
    if source.None? {
      return None;
    }
    ghost var rows := sessions.store.events;
    var finished := RecordRun(sessions, run, meta, streamed, replayed, reason);
    if finished.None? {
      return None;
    }
    OwnRows(rows, sourceId);
    OwnRows(sessions.store.events, run);
    var assessed := Assess(sessions.store, run, source.value.events, finished.value, ignore);
    report := Some(assessed);
  }

  lemma AppendFirst(rows: seq<Event>, a: seq<Event>, b: seq<Event>)
    requires UniqueIds(rows + a + b)
    ensures UniqueIds(rows + a)
  {
    var all := rows + a + b;
    assert forall i :: 0 <= i < |rows + a| ==> (rows + a)[i] == all[i];
  }

  lemma AppendSecond(rows: seq<Event>, a: seq<Event>, b: seq<Event>)
    requires UniqueIds(rows + a + b)
    ensures UniqueIds(rows + Redacted(a) + b)
  {
    var all, once := rows + a + b, rows + Redacted(a) + b;
    assert forall i :: 0 <= i < |once| ==> once[i].eventId == all[i].eventId;
  }
}
