/** What the clocks, counters and ids of the live system keep over every run, whatever the
    interleaving. */
module Timing {
  import opened Sequences
  import opened Events
  import opened Traffic

  // -------------------------------------------------------------- HTTP events

  /** A producer numbers its events in the order it emits them. */
  ghost predicate Position(http: seq<Event>, k: nat)
    requires k < |http|
  {
    http[k].sequence == |Select(RecordingOf, http[..k], http[k].recordingId)|
  }

  ghost predicate HttpTimed(s: State) {
    && (forall k :: 0 <= k < |s.http| ==> s.http[k].timestamp <= s.clock && Position(s.http, k))
    && (forall i, j :: 0 <= i < j < |s.http| ==> s.http[i].timestamp <= s.http[j].timestamp)
  }

  lemma HttpTimedAppend(s: State, t: State, e: Event)
    requires HttpTimed(s) && t.http == s.http + [e] && t.clock >= s.clock && e.timestamp == t.clock
    requires e.sequence == |Select(RecordingOf, s.http, e.recordingId)|
    ensures HttpTimed(t)
  {
    forall k | 0 <= k < |t.http| ensures t.http[k].timestamp <= t.clock && Position(t.http, k) {
      assert t.http[..k] == s.http[..k];
      assert k < |s.http| ==> Position(s.http, k);
    }
    assert s.http[..|s.http|] == s.http;
  }

  lemma HttpTimedStep(s: State, l: Label)
    requires HttpTimed(s) && Enabled(s, l)
    ensures HttpTimed(Apply(s, l))
  {
    if l.Start? || l.Reply? {
      HttpTimedAppend(s, Apply(s, l), Apply(s, l).http[|s.http|]);
    } else {
      forall k | 0 <= k < |s.http| ensures s.http[k].timestamp <= Apply(s, l).clock && Position(Apply(s, l).http, k) {
        assert Position(s.http, k);
      }
    }
  }

  /** HTTP events of one recording have strictly increasing (timestamp, sequence). */
  lemma HttpKeysIncrease(s: State, i: nat, j: nat)
    requires HttpTimed(s) && i < j < |s.http| && s.http[i].recordingId == s.http[j].recordingId
    ensures Less(EventKey(s.http[i]), EventKey(s.http[j]))
  {
    assert Position(s.http, i) && Position(s.http, j);
    SelectMonotone(RecordingOf, s.http, s.http[i].recordingId, i, j);
  }

  // --------------------------------------------------------------- SQL events

  ghost predicate SqlAt(s: State, k: nat)
    requires Booked(s) && k < |s.sql|
  {
    var q := s.requests[s.sqlOwner[k]];
    && s.http[q.sent].timestamp <= s.sql[k].timestamp <= s.clock
    && (q.reply.Some? ==> s.sql[k].timestamp <= s.http[q.reply.value].timestamp)
  }

  /** A statement under way began after its request and after the statements before it. */
  ghost predicate UnderWay(s: State, r: nat)
    requires Booked(s) && r < |s.requests|
  {
    s.requests[r].phase.Running? && s.requests[r].phase.statement.Some? ==>
      var begun := s.requests[r].phase.statement.value;
      && s.http[s.requests[r].sent].timestamp <= begun <= s.clock
      && forall k :: 0 <= k < |s.sql| && s.sqlOwner[k] == r ==> s.sql[k].timestamp <= begun
  }

  ghost predicate SqlTimed(s: State)
    requires Booked(s)
  {
    && (forall k :: 0 <= k < |s.sql| ==> SqlAt(s, k))
    && (forall r :: 0 <= r < |s.requests| ==> UnderWay(s, r))
    && (forall i, j :: 0 <= i < j < |s.sql| && s.sqlOwner[i] == s.sqlOwner[j] ==> s.sql[i].timestamp <= s.sql[j].timestamp)
  }

  lemma SqlAtStart(s: State, l: Label, k: nat)
    requires Booked(s) && Enabled(s, l) && l.Start? && Booked(Apply(s, l)) && k < |s.sql| && SqlAt(s, k)
    ensures SqlAt(Apply(s, l), k)
  {
  }

  lemma SqlAtReply(s: State, l: Label, k: nat)
    requires Booked(s) && Enabled(s, l) && l.Reply? && Booked(Apply(s, l)) && k < |s.sql| && SqlAt(s, k)
    ensures SqlAt(Apply(s, l), k)
  {
  }

  lemma UnderWayHttp(s: State, l: Label, r: nat)
    requires Booked(s) && Enabled(s, l) && (l.Start? || l.Reply?) && Booked(Apply(s, l)) && r < |s.requests| && UnderWay(s, r)
    ensures r < |Apply(s, l).requests| && UnderWay(Apply(s, l), r)
  {
  }

  lemma SqlTimedStart(s: State, l: Label)
    requires Booked(s) && SqlTimed(s) && Enabled(s, l) && l.Start? && Booked(Apply(s, l))
    ensures SqlTimed(Apply(s, l))
  {
    forall k | 0 <= k < |s.sql| ensures SqlAt(Apply(s, l), k) {
      SqlAtStart(s, l, k);
    }
    forall r | 0 <= r < |s.requests| ensures UnderWay(Apply(s, l), r) {
      UnderWayHttp(s, l, r);
    }
  }

  lemma SqlTimedReply(s: State, l: Label)
    requires Booked(s) && SqlTimed(s) && Enabled(s, l) && l.Reply? && Booked(Apply(s, l))
    ensures SqlTimed(Apply(s, l))
  {
    forall k | 0 <= k < |s.sql| ensures SqlAt(Apply(s, l), k) {
      SqlAtReply(s, l, k);
    }
    forall r | 0 <= r < |s.requests| ensures UnderWay(Apply(s, l), r) {
      UnderWayHttp(s, l, r);
    }
  }

  lemma UnderWayEnd(s: State, l: Label, r: nat)
    requires Booked(s) && SqlTimed(s) && Enabled(s, l) && l.SqlEnd? && Booked(Apply(s, l)) && r < |s.requests|
    ensures UnderWay(Apply(s, l), r)
  {
    assert UnderWay(s, r);
  }

  lemma SqlAtEnd(s: State, l: Label, k: nat)
    requires Booked(s) && Enabled(s, l) && l.SqlEnd? && Booked(Apply(s, l)) && UnderWay(s, l.r)
    requires k < |Apply(s, l).sql| && (k < |s.sql| ==> SqlAt(s, k))
    ensures SqlAt(Apply(s, l), k)
  {
  }

  lemma SqlTimedEnd(s: State, l: Label)
    requires Booked(s) && SqlTimed(s) && Enabled(s, l) && l.SqlEnd?
    requires Booked(Apply(s, l))
    ensures SqlTimed(Apply(s, l))
  {
    var t := Apply(s, l);
    assert UnderWay(s, l.r);
    forall k | 0 <= k < |t.sql| ensures SqlAt(t, k) {
      SqlAtEnd(s, l, k);
    }
    forall r | 0 <= r < |t.requests| ensures UnderWay(t, r) {
      UnderWayEnd(s, l, r);
    }
  }

  lemma SqlAtSilent(s: State, t: State, k: nat)
    requires Booked(s) && k < |s.sql| && SqlAt(s, k)
    requires Booked(t) && SameEvents(s, t) && t.clock >= s.clock
    ensures SqlAt(t, k) && s.sql[k].timestamp <= s.clock
  {
    var r := s.sqlOwner[k];
    assert t.requests[r].(phase := s.requests[r].phase) == s.requests[r];
  }

  lemma UnderWaySilent(s: State, l: Label, r: nat)
    requires Booked(s) && SqlTimed(s) && HttpTimed(s) && Enabled(s, l) && Silent(l) && r < |s.requests|
    requires Booked(Apply(s, l))
    ensures |Apply(s, l).requests| == |s.requests| && UnderWay(Apply(s, l), r)
  {
    SilentSameEvents(s, l);
    assert UnderWay(s, r);
    if l.SqlBegin? && l.r == r {
      forall k | 0 <= k < |s.sql| ensures s.sql[k].timestamp <= s.clock {
        assert SqlAt(s, k);
      }
    }
  }

  lemma SqlTimedSilent(s: State, l: Label)
    requires Booked(s) && SqlTimed(s) && HttpTimed(s) && Enabled(s, l) && Silent(l)
    requires Booked(Apply(s, l))
    ensures SqlTimed(Apply(s, l))
  {
    var t := Apply(s, l);
    SilentSameEvents(s, l);
    forall k | 0 <= k < |t.sql| ensures SqlAt(t, k) {
      SqlAtSilent(s, t, k);
    }
    forall r | 0 <= r < |t.requests| ensures UnderWay(t, r) {
      UnderWaySilent(s, l, r);
    }
  }

  // ---------------------------------------------------------- pairs and parents

  /** The listener queues a query and its result together, the result under its query. */
  ghost predicate PairAt(s: State, k: nat)
    requires Booked(s) && k < |s.sql|
  {
    if k % 2 == 0 then
      s.sql[k].kind.PgQuery? && s.sql[k].parent.None? && k + 1 < |s.sql| && s.sqlOwner[k + 1] == s.sqlOwner[k]
    else
      s.sql[k].kind.PgResult? && s.sql[k].parent == Some(s.sql[k - 1].eventId)
  }

  ghost predicate Paired(s: State)
    requires Booked(s)
  {
    |s.sql| % 2 == 0 && forall k :: 0 <= k < |s.sql| ==> PairAt(s, k)
  }

  lemma PairedEnd(s: State, l: Label)
    requires Booked(s) && Paired(s) && Enabled(s, l) && l.SqlEnd? && Booked(Apply(s, l))
    ensures Paired(Apply(s, l))
  {
    var t := Apply(s, l);
    forall k | 0 <= k < |t.sql| ensures PairAt(t, k) {
      assert k < |s.sql| ==> PairAt(s, k);
    }
  }

  lemma PairedStep(s: State, l: Label)
    requires Booked(s) && Paired(s) && Enabled(s, l) && Booked(Apply(s, l))
    ensures Paired(Apply(s, l))
  {
    if l.SqlEnd? {
      PairedEnd(s, l);
    } else {
      forall k | 0 <= k < |s.sql| ensures PairAt(Apply(s, l), k) {
        assert PairAt(s, k);
      }
    }
  }

  ghost predicate ResponsesParented(s: State)
    requires Booked(s)
  {
    forall k :: 0 <= k < |s.http| ==> ResponseParent(s, k)
  }

  ghost predicate ResponseParent(s: State, k: nat)
    requires Booked(s) && k < |s.http|
  {
    var sent := s.requests[s.httpOwner[k]].sent;
    s.http[k].parent == if k == sent then None else Some(s.http[sent].eventId)
  }

  lemma ResponsesParentedSilent(s: State, t: State)
    requires Booked(s) && ResponsesParented(s) && SameEvents(s, t) && Booked(t)
    ensures ResponsesParented(t)
  {
    forall k | 0 <= k < |t.http| ensures ResponseParent(t, k) {
      assert ResponseParent(s, k);
      assert t.requests[s.httpOwner[k]].(phase := s.requests[s.httpOwner[k]].phase) == s.requests[s.httpOwner[k]];
    }
  }

  lemma ResponsesParentedHttp(s: State, l: Label)
    requires Booked(s) && ResponsesParented(s) && Enabled(s, l) && Booked(Apply(s, l)) && (l.Start? || l.Reply?)
    ensures ResponsesParented(Apply(s, l))
  {
    var t := Apply(s, l);
    forall k | 0 <= k < |t.http| ensures ResponseParent(t, k) {
      assert k < |s.http| ==> ResponseParent(s, k);
    }
  }

  lemma ResponsesParentedStep(s: State, l: Label)
    requires Booked(s) && ResponsesParented(s) && Enabled(s, l) && Booked(Apply(s, l))
    ensures ResponsesParented(Apply(s, l))
  {
    if Silent(l) {
      SilentSameEvents(s, l);
      ResponsesParentedSilent(s, Apply(s, l));
    } else if l.SqlEnd? {
      forall k | 0 <= k < |s.http| ensures ResponseParent(Apply(s, l), k) {
        assert ResponseParent(s, k);
      }
    } else {
      ResponsesParentedHttp(s, l);
    }
  }

  // ---------------------------------------------------------------------- ids

  ghost predicate Issued(s: State, e: Event) {
    e.eventId in s.ids && e.eventId != ""
  }

  ghost predicate Identified(s: State) {
    && (forall k :: 0 <= k < |s.http| ==> Issued(s, s.http[k]))
    && (forall k :: 0 <= k < |s.sql| ==> Issued(s, s.sql[k]))
    && UniqueIds(s.http) && UniqueIds(s.sql)
    && (forall i, j :: 0 <= i < |s.http| && 0 <= j < |s.sql| ==> s.http[i].eventId != s.sql[j].eventId)
  }

  lemma IdentifiedHttp(s: State, l: Label)
    requires Identified(s) && Enabled(s, l) && (l.Start? || l.Reply?)
    ensures Identified(Apply(s, l))
  {
    var t := Apply(s, l);
    assert t.http == s.http + [t.http[|s.http|]];
    forall k | 0 <= k < |s.http| ensures Issued(s, s.http[k]) && t.http[k] == s.http[k] {}
    forall k | 0 <= k < |s.sql| ensures Issued(s, s.sql[k]) {}
  }

  lemma IdentifiedSql(s: State, l: Label)
    requires Identified(s) && Enabled(s, l) && l.SqlEnd?
    ensures Identified(Apply(s, l))
  {
    var t := Apply(s, l);
    forall k | 0 <= k < |s.http| ensures Issued(s, s.http[k]) {}
    forall k | 0 <= k < |s.sql| ensures Issued(s, s.sql[k]) && t.sql[k] == s.sql[k] {}
  }

  lemma IdentifiedStep(s: State, l: Label)
    requires Identified(s) && Enabled(s, l)
    ensures Identified(Apply(s, l))
  {
    if l.Start? || l.Reply? {
      IdentifiedHttp(s, l);
    } else if l.SqlEnd? {
      IdentifiedSql(s, l);
    }
  }

  // ---------------------------------------------------------------- every run

  ghost predicate Live(s: State) {
    Booked(s) && HttpTimed(s) && SqlTimed(s) && Paired(s) && ResponsesParented(s) && Identified(s)
  }

  lemma LiveStep(s: State, l: Label)
    requires Live(s) && Enabled(s, l)
    ensures Live(Apply(s, l))
  {
    BookedStep(s, l);
    HttpTimedStep(s, l);
    PairedStep(s, l);
    ResponsesParentedStep(s, l);
    IdentifiedStep(s, l);
    if l.SqlEnd? {
      SqlTimedEnd(s, l);
    } else if l.Start? {
      SqlTimedStart(s, l);
    } else if l.Reply? {
      SqlTimedReply(s, l);
    } else {
      SqlTimedSilent(s, l);
    }
  }

  /** Every run keeps the clocks in step with the logs, the ids unique, and the query/result
      and request/response pairs together. */
  lemma {:induction false} AlwaysLive(ls: seq<Label>)
    requires Legal(ls)
    ensures Live(Exec(ls))
  {
    if |ls| > 0 {
      RunStep(ls);
      AlwaysLive(ls[..|ls| - 1]);
      LiveStep(Exec(ls[..|ls| - 1]), ls[|ls| - 1]);
    }
  }

  /** Each HTTP producer's counter, over every run: its events come numbered 0, 1, 2, ... in
      the order it emitted them, however the producers interleave. */
  lemma ProducerCounts(ls: seq<Label>, recording: string, j: nat)
    requires Legal(ls) && j < |Select(RecordingOf, Exec(ls).http, recording)|
    ensures Select(RecordingOf, Exec(ls).http, recording)[j].sequence == j
  {
    AlwaysLive(ls);
    var k := SelectIndex(RecordingOf, Exec(ls).http, recording, j);
    assert Position(Exec(ls).http, k);
  }
}
