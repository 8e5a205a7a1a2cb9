/** What a run logs is what its steps were given. */
module Logbook {
  import opened Sequences
  import opened Events
  import opened Traffic
  import opened Timing

  /** Logs only grow, and a request stays what it was. */
  lemma LogsGrow(s: State, l: Label)
    requires Enabled(s, l)
    ensures s.http <= Apply(s, l).http && s.sql <= Apply(s, l).sql && |s.requests| <= |Apply(s, l).requests|
    ensures forall r :: 0 <= r < |s.requests| ==>
        && Apply(s, l).requests[r].recording == s.requests[r].recording
        && Apply(s, l).requests[r].correlation == s.requests[r].correlation
        && Apply(s, l).requests[r].sent == s.requests[r].sent
  {
  }

  lemma {:induction false} LogsKept(ls: seq<Label>, i: nat)
    requires Legal(ls) && i <= |ls|
    ensures Legal(ls[..i])
    ensures Exec(ls[..i]).http <= Exec(ls).http && Exec(ls[..i]).sql <= Exec(ls).sql
    ensures |Exec(ls[..i]).requests| <= |Exec(ls).requests|
    ensures forall r :: 0 <= r < |Exec(ls[..i]).requests| ==>
        && Exec(ls).requests[r].recording == Exec(ls[..i]).requests[r].recording
        && Exec(ls).requests[r].correlation == Exec(ls[..i]).requests[r].correlation
        && Exec(ls).requests[r].sent == Exec(ls[..i]).requests[r].sent
    decreases |ls|
  {
    if i == |ls| {
      assert ls[..i] == ls;
    } else {
      var init := ls[..|ls| - 1];
      RunStep(ls);
      LogsKept(init, i);
      assert init[..i] == ls[..i];
      LogsGrow(Exec(init), ls[|ls| - 1]);
    }
  }

  lemma StepTaken(ls: seq<Label>, i: nat)
    requires Legal(ls) && i < |ls|
    ensures Legal(ls[..i]) && Legal(ls[..i + 1]) && Enabled(Exec(ls[..i]), ls[i])
    ensures Exec(ls[..i + 1]) == Apply(Exec(ls[..i]), ls[i])
  {
    LogsKept(ls, i + 1);
    RunStep(ls[..i + 1]);
    assert ls[..i + 1][..i] == ls[..i];
  }

  lemma SameIdSameEvent(es: seq<Event>, k: nat, e: Event)
    requires UniqueIds(es) && k < |es| && e in es && e.eventId == es[k].eventId
    ensures e == es[k]
  {
  }

  /** Over every run: the event logged under a statement's query id is its query, and the one
      under its result id its result, next to each other and both of the request that ran it. */
  lemma SqlLogged(ls: seq<Label>, i: nat) returns (k: nat)
    requires Legal(ls) && i < |ls| && ls[i].SqlEnd?
    ensures Legal(ls[..i])
    ensures var b, l := Exec(ls[..i]), ls[i];
        && l.r < |b.requests| && b.requests[l.r].phase.Running? && b.requests[l.r].phase.statement.Some?
        && forall e :: e in Exec(ls).sql ==>
             && (e.eventId == l.qid ==> e.timestamp == b.requests[l.r].phase.statement.value)
             && (e.eventId == l.rid ==> e.timestamp == b.clock + l.wait && e.duration == 0)
    ensures var s, l := Exec(ls), ls[i];
        && l.r < |s.requests| && k + 1 < |s.sql|
        && s.sql[k].eventId == l.qid && s.sql[k + 1].eventId == l.rid
        && forall e :: e in s.sql ==>
             && (e.eventId == l.qid ==> e.kind == PgQuery && e.payload == l.query && e.parent == None)
             && (e.eventId == l.rid ==> e.kind == PgResult && e.payload == l.result && e.parent == Some(l.qid))
             && (e.eventId in {l.qid, l.rid} ==>
                   e.recordingId == s.requests[l.r].recording && e.correlationId == s.requests[l.r].correlation)
  {
    var l := ls[i];
    StepTaken(ls, i);
    LogsKept(ls, i);
    LogsKept(ls, i + 1);
    AlwaysLive(ls);
    k := |Exec(ls[..i]).sql|;
    var s := Exec(ls);
    assert s.sql[k] == Exec(ls[..i + 1]).sql[k] && s.sql[k + 1] == Exec(ls[..i + 1]).sql[k + 1];
    forall e | e in s.sql && e.eventId == l.qid ensures e == s.sql[k] {
      SameIdSameEvent(s.sql, k, e);
    }
    forall e | e in s.sql && e.eventId == l.rid ensures e == s.sql[k + 1] {
      SameIdSameEvent(s.sql, k + 1, e);
    }
  }

  /** ... the event logged under the id of a send is that request, with its payload ... */
  lemma RequestLogged(ls: seq<Label>, i: nat) returns (k: nat)
    requires Legal(ls) && i < |ls| && ls[i].Start?
    ensures Legal(ls[..i])
    ensures var s, l := Exec(ls), ls[i];
        && k < |s.http| && s.http[k].eventId == l.id
        && forall e :: e in s.http && e.eventId == l.id ==>
             && e.kind == HttpRequest && e.payload == l.payload && e.parent == None
             && e.recordingId == l.recording && e.correlationId == l.correlation
             && e.timestamp == Exec(ls[..i]).clock + l.wait
  {
    StepTaken(ls, i);
    LogsKept(ls, i + 1);
    AlwaysLive(ls);
    k := |Exec(ls[..i]).http|;
    assert Exec(ls).http[k] == Exec(ls[..i + 1]).http[k];
    forall e | e in Exec(ls).http && e.eventId == ls[i].id ensures e == Exec(ls).http[k] {
      SameIdSameEvent(Exec(ls).http, k, e);
    }
  }

  /** ... and the one under the id of a reply is that reply, under its own request. */
  lemma ReplyLogged(ls: seq<Label>, i: nat) returns (k: nat)
    requires Legal(ls) && i < |ls| && ls[i].Reply?
    ensures Legal(ls[..i])
    ensures var s, l := Exec(ls), ls[i];
        && l.r < |s.requests| && s.requests[l.r].sent < |s.http|
        && k < |s.http| && s.http[k].eventId == l.id
        && forall e :: e in s.http && e.eventId == l.id ==>
             && e.kind == HttpResponse && e.payload == l.payload && e.parent == Some(s.http[s.requests[l.r].sent].eventId)
             && e.recordingId == s.requests[l.r].recording && e.correlationId == s.requests[l.r].correlation
             && e.timestamp == Exec(ls[..i]).clock + l.wait
  {
    StepTaken(ls, i);
    LogsKept(ls, i);
    LogsKept(ls, i + 1);
    AlwaysLive(ls);
    AlwaysBooked(ls[..i]);
    k := |Exec(ls[..i]).http|;
    assert Exec(ls).http[k] == Exec(ls[..i + 1]).http[k];
    forall e | e in Exec(ls).http && e.eventId == ls[i].id ensures e == Exec(ls).http[k] {
      SameIdSameEvent(Exec(ls).http, k, e);
    }
  }
}
