/** Concurrent replay cannot misalign requests. */
module Alignment {
  import opened Json
  import opened Sequences
  import opened Events
  import opened Correlate
  import opened CorrelateLaws
  import opened Linking
  import opened LinkingLaws
  import opened Traffic
  import opened Timing
  import opened LiveShape
  import opened Completeness

  // Whatever the concurrency, the response order and the interleaving of SQL, the i-th request
  // sent becomes the i-th group of the finished run, and `link_streams` pairs it with the
  // source's i-th request.

  // ----------------------------------------------------------- heads of groups

  /** `hs` are the first events of the groups `gs`. */
  ghost predicate HeadsOf(gs: seq<seq<Event>>, hs: seq<Event>) {
    |hs| == |gs| && forall i :: 0 <= i < |gs| ==> |gs[i]| > 0 && hs[i] == gs[i][0]
  }

  /** `x` comes strictly first among the rows with its correlation id. */
  ghost predicate Leads(es: seq<Event>, x: Event) {
    x in es && forall y :: y in es && CorrOf(y) == CorrOf(x) && y != x ==> Less(EventKey(x), EventKey(y))
  }

  ghost predicate LedBy(heads: seq<Event>, y: Event) {
    exists i :: 0 <= i < |heads| && CorrOf(heads[i]) == CorrOf(y)
  }

  /** `heads` are the strict firsts of all groups, in strictly increasing key order. */
  ghost predicate LeadersOf(es: seq<Event>, heads: seq<Event>) {
    && Increasing(heads)
    && (forall x :: x in heads ==> Leads(es, x))
    && (forall y :: y in es ==> LedBy(heads, y))
  }

  lemma LeaderHeadsGroup(es: seq<Event>, g: seq<Event>, x: Event)
    requires OwnGroup(es, g) && Leads(es, x) && CorrOf(x) == CorrOf(g[0])
    ensures g[0] == x
  {
    OwnGroupHead(es, g);
  }

  lemma LeaderIsHead(es: seq<Event>, hs: seq<Event>, x: Event)
    requires Leads(es, x) && HeadsOf(Groups(es), hs)
    ensures x in hs
  {
    var j := GroupOf(es, x);
    LeaderHeadsGroup(es, Groups(es)[j], x);
    assert hs[j] == x;
  }

  lemma HeadIsLeader(es: seq<Event>, heads: seq<Event>, g: seq<Event>)
    requires LeadersOf(es, heads) && OwnGroup(es, g)
    ensures g[0] in heads
  {
    OwnGroupHead(es, g);
    assert LedBy(heads, g[0]);
    var i :| 0 <= i < |heads| && CorrOf(heads[i]) == CorrOf(g[0]);
    assert heads[i] in heads;
    LeaderHeadsGroup(es, g, heads[i]);
  }

  lemma HeadsAscend(gs: seq<seq<Event>>) returns (hs: seq<Event>)
    requires Grouped(gs)
    ensures HeadsOf(gs, hs) && Sorted(EventKey, hs) && NoDuplicates(hs)
  {
    hs := seq(|gs|, i requires 0 <= i < |gs| => gs[i][0]);
    forall i, j | 0 <= i < j < |hs| ensures Leq(EventKey(hs[i]), EventKey(hs[j])) && hs[i] != hs[j] {
      assert Leq(GroupKey(gs[i]), GroupKey(gs[j]));
    }
  }

  lemma LeadersAreHeads(es: seq<Event>, heads: seq<Event>, hs: seq<Event>)
    requires LeadersOf(es, heads) && HeadsOf(Groups(es), hs)
    ensures forall x :: x in heads <==> x in hs
  {
    forall x | x in heads ensures x in hs {
      LeaderIsHead(es, hs, x);
    }
    forall j | 0 <= j < |hs| ensures hs[j] in heads {
      GroupsShape(es);
      HeadIsLeader(es, heads, Groups(es)[j]);
    }
  }

  /** Strict leaders in increasing order head the groups, in that order. */
  lemma LeadersHead(es: seq<Event>, heads: seq<Event>)
    requires LeadersOf(es, heads)
    ensures HeadsOf(Groups(es), heads)
  {
    GroupsShape(es);
    var hs := HeadsAscend(Groups(es));
    LeadersAreHeads(es, heads, hs);
    SameElements(heads, hs);
    IncreasingUnique(heads, hs);
  }

  lemma IncreasingUnique(heads: seq<Event>, other: seq<Event>)
    requires Increasing(heads) && Sorted(EventKey, other) && multiset(heads) == multiset(other)
    ensures heads == other
  {
    forall x, y | x in heads && y in heads && EventKey(x) == EventKey(y) ensures x == y {
      var i :| 0 <= i < |heads| && heads[i] == x;
      var j :| 0 <= j < |heads| && heads[j] == y;
    }
    SortedUnique(EventKey, heads, other);
  }

  // ------------------------------------------------------------- the sent requests

  /** What the run sent: its http.request events, in emission order. */
  function Sent(s: State, run: string): seq<Event> {
    Requests(Select(RecordingOf, s.http, run))
  }

  /** The payloads of the run's sends, in the order the sends began. */
  ghost function Sends(ls: seq<Label>, run: string): seq<Payload> {
    if |ls| == 0 then []
    else
      var rest := Sends(ls[..|ls| - 1], run);
      match ls[|ls| - 1]
      case Start(recording, _, _, payload, _) => if recording == run then rest + [payload] else rest
      case _ => rest
  }

  lemma SentAppend(http: seq<Event>, e: Event, run: string)
    ensures Requests(Select(RecordingOf, http + [e], run))
         == if e.recordingId == run && e.kind.HttpRequest?
            then Requests(Select(RecordingOf, http, run)) + [e]
            else Requests(Select(RecordingOf, http, run))
  {
    SelectAppend(RecordingOf, http, e, run);
    if e.recordingId == run {
      SelectAppend(IsRequest, Select(RecordingOf, http, run), e, true);
    }
  }

  lemma {:induction false} SentInOrder(ls: seq<Label>, run: string)
    requires Legal(ls)
    ensures MapSeq(PayloadOf, Sent(Exec(ls), run)) == Sends(ls, run)
  {
    if |ls| > 0 {
      var init, l := ls[..|ls| - 1], ls[|ls| - 1];
      RunStep(ls);
      SentInOrder(init, run);
      var s := Exec(init);
      if l.Start? || l.Reply? {
        SentAppend(s.http, Apply(s, l).http[|s.http|], run);
      }
    }
  }

  /** Every request of the run has a correlation id of its own: `uuid4` is fresh. */
  ghost predicate OwnCorrelations(s: State, run: string) {
    forall p, q :: 0 <= p < q < |s.requests| && s.requests[p].recording == run && s.requests[q].recording == run ==>
      s.requests[p].correlation != s.requests[q].correlation
  }

  /** The run's SQL is keyed after the request that caused it: clocks already give "not
      before", so this only excludes a timestamp tie across the two producers. */
  ghost predicate SqlKeyedAfter(s: State, run: string) {
    forall k, r :: 0 <= k < |s.sql| && k < |s.sqlOwner| && s.sqlOwner[k] == r && s.sql[k].recordingId == run ==>
      KeyedAfterRequest(s, r, s.sql[k])
  }

  ghost predicate KeyedAfterRequest(s: State, r: nat, e: Event) {
    r < |s.requests| && s.requests[r].sent < |s.http| ==> Less(EventKey(s.http[s.requests[r].sent]), EventKey(e))
  }

  lemma AppendIncreases(before: seq<Event>, e: Event)
    requires Increasing(before) && forall x :: x in before ==> Less(EventKey(x), EventKey(e))
    ensures Increasing(before + [e])
  {
    forall i | 0 <= i < |before| ensures Less(EventKey(before[i]), EventKey(e)) {
      assert before[i] in before;
    }
  }

  lemma {:induction false} HttpSubIncreases(s: State, run: string, n: nat)
    requires HttpTimed(s) && n <= |s.http|
    ensures Increasing(Requests(Select(RecordingOf, s.http[..n], run)))
  {
    if n > 0 {
      var before := Requests(Select(RecordingOf, s.http[..n - 1], run));
      HttpSubIncreases(s, run, n - 1);
      assert s.http[..n] == s.http[..n - 1] + [s.http[n - 1]];
      SentAppend(s.http[..n - 1], s.http[n - 1], run);
      if s.http[n - 1].recordingId == run {
        forall x | x in before ensures Less(EventKey(x), EventKey(s.http[n - 1])) {
          SentEarlier(s, run, n - 1, x);
        }
        AppendIncreases(before, s.http[n - 1]);
      }
    }
  }

  lemma SentEarlier(s: State, run: string, n: nat, x: Event)
    requires HttpTimed(s) && n < |s.http| && s.http[n].recordingId == run
    requires x in Requests(Select(RecordingOf, s.http[..n], run))
    ensures Less(EventKey(x), EventKey(s.http[n]))
  {
    SelectMembers(IsRequest, Select(RecordingOf, s.http[..n], run), true);
    SelectMembers(RecordingOf, s.http[..n], run);
    assert x in s.http[..n];
    var k :| 0 <= k < n && s.http[..n][k] == x;
    HttpKeysIncrease(s, k, n);
  }

  lemma SentIncreases(s: State, run: string)
    requires HttpTimed(s)
    ensures Increasing(Sent(s, run))
  {
    HttpSubIncreases(s, run, |s.http|);
    assert s.http[..|s.http|] == s.http;
  }

  lemma SentMembers(s: State, run: string, x: Event)
    ensures x in Sent(s, run) <==> x in s.http && x.recordingId == run && x.kind.HttpRequest?
  {
    SelectMembers(RecordingOf, s.http, run);
    SelectMembers(IsRequest, Select(RecordingOf, s.http, run), true);
  }

  /** The request an HTTP or SQL event of the run belongs to was sent by it. */
  lemma RequestOf(s: State, run: string, e: Event) returns (r: nat)
    requires Booked(s) && e.recordingId == run && (e in s.http || e in s.sql)
    ensures r < |s.requests| && s.requests[r].recording == run && s.requests[r].correlation == e.correlationId
    ensures e in s.http ==> exists k :: 0 <= k < |s.http| && s.http[k] == e && s.httpOwner[k] == r
    ensures e !in s.http ==> exists k :: 0 <= k < |s.sql| && s.sql[k] == e && s.sqlOwner[k] == r
  {
    if e in s.http {
      var k :| 0 <= k < |s.http| && s.http[k] == e;
      assert HttpBooked(s, k);
      r := s.httpOwner[k];
    } else {
      var k :| 0 <= k < |s.sql| && s.sql[k] == e;
      assert SqlBooked(s, k);
      r := s.sqlOwner[k];
    }
  }

  lemma SentLeads(s: State, run: string, es: seq<Event>, x: Event)
    requires Live(s) && RowsOf(s, run, es) && OwnCorrelations(s, run) && SqlKeyedAfter(s, run)
    requires x in s.http && x.recordingId == run && x.kind.HttpRequest?
    ensures Leads(es, x)
  {
    RowsMembers(s, run, es);
    var r := RequestOf(s, run, x);
    var k :| 0 <= k < |s.http| && s.http[k] == x && s.httpOwner[k] == r;
    assert HttpBooked(s, k);
    forall y | y in es && CorrOf(y) == CorrOf(x) && y != x ensures Less(EventKey(x), EventKey(y)) {
      var q := RequestOf(s, run, y);
      assert q == r;
      FirstOfRequest(s, run, r, y);
    }
  }

  lemma FirstOfRequest(s: State, run: string, r: nat, y: Event)
    requires Live(s) && SqlKeyedAfter(s, run) && r < |s.requests| && y.recordingId == run
    requires y != s.http[s.requests[r].sent]
    requires (exists k :: 0 <= k < |s.http| && s.http[k] == y && s.httpOwner[k] == r)
          || (exists k :: 0 <= k < |s.sql| && s.sql[k] == y && s.sqlOwner[k] == r)
    ensures Less(EventKey(s.http[s.requests[r].sent]), EventKey(y))
  {
    if k :| 0 <= k < |s.http| && s.http[k] == y && s.httpOwner[k] == r {
      assert HttpBooked(s, k);
      assert HttpBooked(s, s.requests[r].sent);
      HttpKeysIncrease(s, s.requests[r].sent, k);
    } else {
      var k :| 0 <= k < |s.sql| && s.sql[k] == y && s.sqlOwner[k] == r;
      assert KeyedAfterRequest(s, r, s.sql[k]);
    }
  }

  /** The requests the run sent lead its groups, in the order they were sent. */
  lemma SentAreLeaders(s: State, run: string, es: seq<Event>)
    requires Live(s) && RowsOf(s, run, es) && OwnCorrelations(s, run) && SqlKeyedAfter(s, run)
    ensures LeadersOf(es, Sent(s, run))
  {
    var heads := Sent(s, run);
    RowsMembers(s, run, es);
    forall x | x in heads ensures Leads(es, x) {
      SentMembers(s, run, x);
      SentLeads(s, run, es, x);
    }
    forall y | y in es ensures LedBy(heads, y) {
      var r := RequestOf(s, run, y);
      var x := s.http[s.requests[r].sent];
      assert HttpBooked(s, s.requests[r].sent);
      SentMembers(s, run, x);
    }
    SentIncreases(s, run);
  }

  // ------------------------------------------------------------------- linking

  /** A finished recording: what `finish_recording` stored, read back in order. */
  ghost predicate Finished(es: seq<Event>) {
    Correlated(es) == es
  }

  lemma FinishedShape(es: seq<Event>)
    requires Finished(es)
    ensures Flatten(Groups(es)) == es && Grouped(Groups(es)) && InOrder(es) == es
  {
    CorrelateIdempotent(es);
    CorrelateIsStableRegrouping(es);
    SortSorted(SequenceKey, es);
  }

  /** Every group opens the keys of the stream in order, and holds one request. */
  lemma {:induction false} OneRequestEach(gs: seq<seq<Event>>, i: nat)
    requires i < |gs|
    requires forall j :: 0 <= j < |gs| ==> |Requests(gs[j])| == 1
    ensures |Requests(Flatten(gs))| == |gs| && Requests(Flatten(gs))[i] == Requests(gs[i])[0]
  {
    var n := |gs| - 1;
    SelectConcat(IsRequest, Flatten(gs[..n]), gs[n], true);
    if n > 0 {
      OneRequestEach(gs[..n], if i < n then i else 0);
    } else {
      assert Flatten(gs[..n]) == [];
    }
  }

  /** The only request of a group fills its slot. */
  lemma SoleRequest(s: seq<Event>, g: nat, e: Event)
    requires UniqueIds(s) && g < |Keys(CorrOf, s)| && e in s
    requires e.kind.HttpRequest? && CorrOf(e) == Keys(CorrOf, s)[g]
    requires forall x :: x in s && KindOf(x) == KindOf(e) ==> x == e
    ensures Slot(s, g, HttpRequest) == [e]
  {
    var slot := Slot(s, g, HttpRequest);
    SelectMembers(KindOf, s, KindOf(e));
    UniqueNoDuplicates(s);
    SelectNoDuplicates(KindOf, s, KindOf(e));
    assert e in slot;
    OnlyElement(slot, e);
  }

  lemma OnlyElement<T(!new)>(s: seq<T>, x: T)
    requires NoDuplicates(s) && x in s && forall y :: y in s ==> y == x
    ensures s == [x]
  {
    NoDuplicatesMultiplicity(s, x);
    forall y ensures multiset(s)[y] == multiset{x}[y] {
      assert y in multiset(s) <==> y in s;
    }
    assert multiset(s) == multiset{x};
    assert |s| == |multiset(s)| == 1;
    assert s[0] in s;
  }

  ghost predicate OneRequestPerGroup(es: seq<Event>) {
    forall i :: 0 <= i < |Groups(es)| ==> |Requests(Groups(es)[i])| == 1
  }

  /** In a finished recording with one request per group, the i-th request is the whole
      http.request slot of group i. */
  lemma SourceSlot(source: seq<Event>, i: nat)
    requires Finished(source) && UniqueIds(source) && OneRequestPerGroup(source) && i < |Groups(source)|
    ensures |Requests(source)| == |Groups(source)| == |Keys(CorrOf, source)|
    ensures Slot(InOrder(source), i, HttpRequest) == [Requests(source)[i]]
    ensures CorrOf(Requests(source)[i]) == Keys(CorrOf, source)[i]
  {
    var gs := Groups(source);
    FinishedShape(source);
    OneRequestEach(gs, i);
    RunsKeys(CorrOf, gs);
    var e := Requests(source)[i];
    SelectMembers(IsRequest, gs[i], true);
    assert e in Requests(gs[i]) && e in gs[i];
    forall x | x in source && KindOf(x) == KindOf(e) ensures x == e {
      OnlyRequest(gs, i, e, x);
    }
    SoleRequest(source, i, e);
  }

  lemma OnlyRequest(gs: seq<seq<Event>>, i: nat, e: Event, x: Event)
    requires Runs(CorrOf, gs) && i < |gs| && e in gs[i] && |Requests(gs[i])| == 1
    requires e.kind.HttpRequest? && x in Flatten(gs) && KindOf(x) == KindOf(e)
    ensures x == e
  {
    var j :| 0 <= j < |gs| && x in gs[j];
    assert CorrOf(gs[j][0]) == CorrOf(gs[i][0]);
    SelectMembers(IsRequest, gs[i], true);
    assert x in Requests(gs[i]) && e in Requests(gs[i]);
  }

  lemma CorrelatedKeys(es: seq<Event>, i: nat)
    requires i < |Groups(es)|
    ensures |Keys(CorrOf, Correlated(es))| == |Groups(es)|
    ensures |Groups(es)[i]| > 0 && Keys(CorrOf, Correlated(es))[i] == CorrOf(Groups(es)[i][0])
  {
    OutShape(es);
    RunsKeys(CorrOf, OutGroups(es));
  }

  lemma OutputSole(es: seq<Event>, head: Event, e: Event)
    requires UniqueIds(es) && e in Correlated(es) && Erase(e) == Erase(head)
    requires forall y :: y in es && KindOf(y) == KindOf(head) ==> y == head
    ensures forall x :: x in Correlated(es) && KindOf(x) == KindOf(e) ==> x == e
  {
    CorrelatedUniqueIds(es);
    forall x | x in Correlated(es) && KindOf(x) == KindOf(e) ensures x == e {
      var y := InputOf(es, x);
      assert KindOf(y) == KindOf(Erase(y)) && KindOf(head) == KindOf(Erase(head));
      assert y.eventId == Erase(y).eventId && x.eventId == Erase(x).eventId && e.eventId == Erase(e).eventId;
      SameIdSame(Correlated(es), x, e);
    }
  }

  /** In the correlated run, the sole request `head` heading group i fills its slot. */
  lemma ReplaySlot(es: seq<Event>, head: Event, i: nat)
    requires UniqueIds(es) && i < |Groups(es)| && |Groups(es)[i]| > 0 && Groups(es)[i][0] == head
    requires head.kind.HttpRequest? && forall y :: y in es && KindOf(y) == KindOf(head) ==> y == head
    ensures |Slot(InOrder(Correlated(es)), i, HttpRequest)| == 1
    ensures Slot(InOrder(Correlated(es)), i, HttpRequest)[0].eventId == head.eventId
  {
    CorrelatedKeys(es, i);
    var e := HeadInOutput(es, i);
    OutputSole(es, head, e);
    CorrelatedUniqueIds(es);
    CorrelatedInOrder(es);
    assert e.eventId == Erase(e).eventId && e.kind == Erase(e).kind && CorrOf(e) == CorrOf(Erase(e));
    SoleRequest(Correlated(es), i, e);
  }

  lemma CorrelatedInOrder(es: seq<Event>)
    ensures InOrder(Correlated(es)) == Correlated(es)
  {
    CorrelateIsStableRegrouping(es);
    SortSorted(SequenceKey, Correlated(es));
  }

  lemma SameIdSame(es: seq<Event>, x: Event, y: Event)
    requires UniqueIds(es) && x in es && y in es && x.eventId == y.eventId
    ensures x == y
  {
  }

  lemma HeadInOutput(es: seq<Event>, i: nat) returns (e: Event)
    requires i < |Groups(es)| && |Groups(es)[i]| > 0
    ensures e in Correlated(es) && Erase(e) == Erase(Groups(es)[i][0])
  {
    OutAt(es, i, 0);
    e := OutGroups(es)[i][0];
    assert e in OutGroups(es)[i];
  }

  lemma RowsUniqueIds(s: State, run: string, es: seq<Event>)
    requires Live(s) && RowsOf(s, run, es)
    ensures UniqueIds(es)
  {
    RowsMembers(s, run, es);
    forall i, j | 0 <= i < j < |es| ensures es[i].eventId != es[j].eventId {
      assert es[i] in es && es[j] in es;
      assert es[i] != es[j];
      IdTells(s, es[i], es[j]);
    }
  }

  lemma IdTells(s: State, x: Event, y: Event)
    requires Identified(s) && (x in s.http || x in s.sql) && (y in s.http || y in s.sql)
    ensures x != y ==> x.eventId != y.eventId
  {
  }

  /** Replay alignment. The run's rows may have arrived in any order. */
  lemma ReplayAlignment(ls: seq<Label>, run: string, source: seq<Event>, es: seq<Event>)
    requires Legal(ls) && RowsOf(Exec(ls), run, es) && OwnCorrelations(Exec(ls), run)
    requires SqlKeyedAfter(Exec(ls), run)
    requires Finished(source) && UniqueIds(source) && OneRequestPerGroup(source)
    requires |Sends(ls, run)| == |Requests(source)|
    ensures |Groups(es)| == |Groups(source)| == |Requests(source)|
    ensures forall i :: 0 <= i < |Requests(source)| ==>
        && |Groups(es)[i]| > 0 && Groups(es)[i][0].kind.HttpRequest?
        && Groups(es)[i][0].payload == Sends(ls, run)[i]
        && Requests(source)[i].eventId in Links(source, Correlated(es))
        && Links(source, Correlated(es))[Requests(source)[i].eventId] == Groups(es)[i][0].eventId
  {
    var s := Exec(ls);
    AlwaysLive(ls);
    SentInOrder(ls, run);
    SentAreLeaders(s, run, es);
    LeadersHead(es, Sent(s, run));
    SourceGroups(source);
    forall i | 0 <= i < |Requests(source)|
      ensures Sent(s, run)[i].kind.HttpRequest? && Sent(s, run)[i].payload == Sends(ls, run)[i]
      ensures Requests(source)[i].eventId in Links(source, Correlated(es))
      ensures Links(source, Correlated(es))[Requests(source)[i].eventId] == Sent(s, run)[i].eventId
    {
      assert MapSeq(PayloadOf, Sent(s, run))[i] == Sends(ls, run)[i];
      SentLinked(s, run, source, es, i);
    }
  }

  /** Whatever the source looks like, the run has one group per request sent: it can only
      mirror a source that has as many groups as requests. */
  lemma OneGroupPerSend(ls: seq<Label>, run: string, es: seq<Event>)
    requires Legal(ls) && RowsOf(Exec(ls), run, es) && OwnCorrelations(Exec(ls), run)
    requires SqlKeyedAfter(Exec(ls), run)
    ensures |Groups(es)| == |Sends(ls, run)|
  {
    AlwaysLive(ls);
    SentInOrder(ls, run);
    SentAreLeaders(Exec(ls), run, es);
    LeadersHead(es, Sent(Exec(ls), run));
  }

  lemma SourceGroups(source: seq<Event>)
    requires Finished(source) && OneRequestPerGroup(source)
    ensures |Requests(source)| == |Groups(source)|
  {
    FinishedShape(source);
    if |Groups(source)| > 0 {
      OneRequestEach(Groups(source), 0);
    }
  }

  lemma SentLinked(s: State, run: string, source: seq<Event>, es: seq<Event>, i: nat)
    requires Live(s) && RowsOf(s, run, es) && OwnCorrelations(s, run) && HeadsOf(Groups(es), Sent(s, run))
    requires Finished(source) && UniqueIds(source) && OneRequestPerGroup(source)
    requires i < |Groups(source)| == |Requests(source)| && i < |Sent(s, run)|
    ensures Sent(s, run)[i].kind.HttpRequest?
    ensures Requests(source)[i].eventId in Links(source, Correlated(es))
    ensures Links(source, Correlated(es))[Requests(source)[i].eventId] == Sent(s, run)[i].eventId
  {
    RowsUniqueIds(s, run, es);
    assert Sent(s, run)[i] in Sent(s, run);
    OnlyOneSent(s, run, es, Sent(s, run)[i]);
    ReplaySlot(es, Sent(s, run)[i], i);
    SlotsLinked(source, Correlated(es), Sent(s, run)[i].eventId, i);
  }

  lemma SlotsLinked(source: seq<Event>, replayed: seq<Event>, id: string, i: nat)
    requires Finished(source) && UniqueIds(source) && OneRequestPerGroup(source) && i < |Groups(source)|
    requires |Slot(InOrder(replayed), i, HttpRequest)| == 1 && Slot(InOrder(replayed), i, HttpRequest)[0].eventId == id
    ensures i < |Requests(source)| && Requests(source)[i].eventId in Links(source, replayed)
    ensures Links(source, replayed)[Requests(source)[i].eventId] == id
  {
    SourceSlot(source, i);
    LinksZip(source, replayed, i, HttpRequest, 0);
  }

  lemma OnlyOneSent(s: State, run: string, es: seq<Event>, x: Event)
    requires Live(s) && RowsOf(s, run, es) && OwnCorrelations(s, run) && x in Sent(s, run)
    ensures x.kind.HttpRequest?
    ensures forall y :: y in es && KindOf(y) == KindOf(x) ==> y == x
  {
    RowsMembers(s, run, es);
    SentMembers(s, run, x);
    forall y | y in es && KindOf(y) == KindOf(x) ensures y == x {
      var p := RequestOf(s, run, x);
      var q := RequestOf(s, run, y);
      assert p == q;
      RequestOnce(s, p, x);
      if y in s.http {
        RequestOnce(s, p, y);
      } else {
        NotSql(s, y);
      }
    }
  }

  lemma NotSql(s: State, y: Event)
    requires Booked(s) && y in s.sql
    ensures !y.kind.HttpRequest?
  {
    var k :| 0 <= k < |s.sql| && s.sql[k] == y;
    assert SqlBooked(s, k);
  }

  lemma RequestOnce(s: State, r: nat, x: Event)
    requires Booked(s) && r < |s.requests| && x.kind.HttpRequest?
    requires exists k :: 0 <= k < |s.http| && s.http[k] == x && s.httpOwner[k] == r
    ensures x == s.http[s.requests[r].sent]
  {
    var k :| 0 <= k < |s.http| && s.http[k] == x && s.httpOwner[k] == r;
    assert HttpBooked(s, k);
  }

  lemma GroupCorrelation(es: seq<Event>, sig: Signature, a: Event)
    requires InOrder(es) == es && Partner(InOrder(es), sig) == Some(a)
    ensures sig.group < |Keys(CorrOf, es)| && a.correlationId == Keys(CorrOf, es)[sig.group]
  {
    var slot := Slot(es, sig.group, sig.kind);
    SelectMembers(KindOf, es, (Keys(CorrOf, es)[sig.group], sig.kind));
    assert a in slot;
  }

  lemma SourceKeys(source: seq<Event>)
    requires Finished(source) && UniqueIds(source) && OneRequestPerGroup(source)
    ensures |Requests(source)| == |Keys(CorrOf, source)|
    ensures forall i :: 0 <= i < |Requests(source)| ==> Requests(source)[i].correlationId == Keys(CorrOf, source)[i]
  {
    SourceGroups(source);
    FinishedShape(source);
    RunsKeys(CorrOf, Groups(source));
    forall i | 0 <= i < |Requests(source)| ensures Requests(source)[i].correlationId == Keys(CorrOf, source)[i] {
      SourceSlot(source, i);
    }
  }

  /** No cross-talk: whatever is linked, of any type, comes from corresponding requests. */
  lemma NoCrossTalk(ls: seq<Label>, run: string, source: seq<Event>, es: seq<Event>, id: string) returns (i: nat, a: Event, b: Event)
    requires Legal(ls) && RowsOf(Exec(ls), run, es) && OwnCorrelations(Exec(ls), run)
    requires SqlKeyedAfter(Exec(ls), run)
    requires Finished(source) && UniqueIds(source) && OneRequestPerGroup(source)
    requires |Sends(ls, run)| == |Requests(source)|
    requires id in Links(source, Correlated(es))
    ensures a in source && a.eventId == id && b in Correlated(es) && b.eventId == Links(source, Correlated(es))[id]
    ensures i < |Requests(source)| && i < |Groups(es)| && |Groups(es)[i]| > 0
    ensures a.correlationId == Requests(source)[i].correlationId
    ensures b.correlationId == Groups(es)[i][0].correlationId
  {
    var sig;
    sig, a, b := LinkPair(source, Correlated(es), id);
    i := sig.group;
    ReplayAlignment(ls, run, source, es);
    FinishedShape(source);
    CorrelatedInOrder(es);
    GroupCorrelation(source, sig, a);
    GroupCorrelation(Correlated(es), sig, b);
    SourceKeys(source);
    CorrelatedKeys(es, i);
  }

  /** A replay that collects when nobody carries its events finishes on exactly the run's rows:
      what was collected from the target plus the replayed pairs, however they are stored. */
  lemma FinishReadsTheRun(ls: seq<Label>, run: string, es: seq<Event>)
    requires Legal(ls) && ReplayRun(ls, run) && run in Exec(ls).collected
    requires multiset(es) == multiset(Select(RecordingOf, Exec(ls).http, run) + Exec(ls).collected[run])
    ensures RowsOf(Exec(ls), run, es)
  {
    ReplayCompleteness(ls, run);
  }
}
