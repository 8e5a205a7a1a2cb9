/** What the report of a concurrent replay says, in terms of what was sent and answered. */
module ReplayReport {
  import opened Sequences
  import opened Events
  import opened Correlate
  import opened CorrelateLaws
  import opened Linking
  import opened Comparators
  import opened ComparisonLaws
  import opened Naturality
  import opened Traffic
  import opened Timing
  import opened LiveShape
  import opened Alignment

  predicate IsResult(e: Event) { e.kind.PgResult? }

  /** What request `r` produced that a comparator looks at: its reply, or the results of its
      own SQL as its statements ended. */
  function Outcomes(s: State, r: nat, kind: EventType): seq<Event>
    requires Booked(s) && r < |s.requests|
  {
    if kind.PgResult? then Select(IsResult, OwnSql(s, r), true)
    else if kind.HttpResponse? && Replied(s, r) then [s.http[s.requests[r].reply.value]]
    else []
  }

  /** What the source's `i`-th request produced. */
  function Expected(source: seq<Event>, i: nat, kind: EventType): seq<Event>
    requires i < |Requests(source)|
  {
    Select(KindOf, source, (Requests(source)[i].correlationId, kind))
  }

  /** Request `r` was the `i`-th that the run sent. */
  predicate SentAs(s: State, run: string, r: nat, i: nat) {
    && r < |s.requests| && s.requests[r].recording == run && s.requests[r].sent < |s.http|
    && i < |Sent(s, run)| && Sent(s, run)[i] == s.http[s.requests[r].sent]
  }

  // ------------------------------------------------------- what a request produced

  lemma {:induction false} SelectKeepsOrder<T(!new), K(!new)>(f: T -> K, key: T -> Key, s: seq<T>, k: K)
    requires Sorted(key, s)
    ensures Sorted(key, Select(f, s, k))
  {
    if |s| > 0 {
      var init, last := s[..|s| - 1], s[|s| - 1];
      SelectKeepsOrder(f, key, init, k);
      SelectMembers(f, init, k);
      forall y | y in Select(f, init, k) ensures Leq(key(y), key(last)) {
        SortedLast(key, s, y);
      }
      AppendSorted(key, Select(f, init, k), last);
    }
  }

  lemma {:induction false} SelectIncreasing(es: seq<Event>)
    requires Increasing(es)
    ensures Increasing(Select(IsResult, es, true))
  {
    if |es| > 0 {
      var init, last := es[..|es| - 1], es[|es| - 1];
      SelectIncreasing(init);
      SelectMembers(IsResult, init, true);
      forall x | x in Select(IsResult, init, true) ensures Less(EventKey(x), EventKey(last)) {
        var i :| 0 <= i < |init| && es[i] == x;
      }
      AppendIncreases(Select(IsResult, init, true), last);
    }
  }

  lemma OutcomesIncrease(s: State, r: nat, kind: EventType)
    requires Live(s) && r < |s.requests|
    ensures Increasing(Outcomes(s, r, kind)) && NoDuplicates(Outcomes(s, r, kind))
  {
    forall i, j | 0 <= i < j < |OwnSql(s, r)| ensures Less(EventKey(OwnSql(s, r)[i]), EventKey(OwnSql(s, r)[j])) {
      OwnSqlIncreases(s, r, i, j);
    }
    SelectIncreasing(OwnSql(s, r));
  }

  lemma OutcomeKinds(s: State, r: nat, kind: EventType, e: Event)
    requires Live(s) && r < |s.requests| && Comparable(kind) && e in Outcomes(s, r, kind)
    ensures e.recordingId == s.requests[r].recording && KindOf(e) == (s.requests[r].correlation, kind)
    ensures e in s.http || e in s.sql
  {
    if kind.PgResult? {
      SelectMembers(IsResult, OwnSql(s, r), true);
      OwnSqlMembers(s, r, e);
      var k :| 0 <= k < |s.sql| && s.sql[k] == e;
      assert SqlBooked(s, k);
    } else {
      assert HttpBooked(s, s.requests[r].reply.value);
    }
  }

  lemma OutcomesAll(s: State, run: string, r: nat, kind: EventType, e: Event)
    requires Live(s) && OwnCorrelations(s, run) && r < |s.requests| && s.requests[r].recording == run && Comparable(kind)
    requires e.recordingId == run && (e in s.http || e in s.sql) && KindOf(e) == (s.requests[r].correlation, kind)
    ensures e in Outcomes(s, r, kind)
  {
    var q := RequestOf(s, run, e);
    assert q == r;
    if e in s.http {
      var k :| 0 <= k < |s.http| && s.http[k] == e && s.httpOwner[k] == r;
      assert HttpBooked(s, k);
    } else {
      var k :| 0 <= k < |s.sql| && s.sql[k] == e && s.sqlOwner[k] == r;
      assert SqlBooked(s, k);
      OwnSqlMembers(s, r, e);
      SelectMembers(IsResult, OwnSql(s, r), true);
    }
  }

  /** The request's group holds, of each compared type, what the request produced. */
  lemma GroupOutcomes(s: State, run: string, es: seq<Event>, g: seq<Event>, r: nat, kind: EventType)
    requires Live(s) && RowsOf(s, run, es) && OwnCorrelations(s, run) && OwnGroup(es, g)
    requires r < |s.requests| && s.requests[r].recording == run && CorrOf(g[0]) == s.requests[r].correlation
    requires Comparable(kind)
    ensures Select(KindOf, g, (CorrOf(g[0]), kind)) == Outcomes(s, r, kind)
  {
    var k := (CorrOf(g[0]), kind);
    var own := Outcomes(s, r, kind);
    RowsMembers(s, run, es);
    OwnGroupShape(es, g);
    SelectMembers(KindOf, g, k);
    forall e ensures e in Select(KindOf, g, k) <==> e in own {
      if e in own {
        OutcomeKinds(s, r, kind, e);
      }
      if e in Select(KindOf, g, k) {
        OutcomesAll(s, run, r, kind, e);
      }
    }
    OutcomesIncrease(s, r, kind);
    GroupDistinct(es, g);
    SelectNoDuplicates(KindOf, g, k);
    SameElements(own, Select(KindOf, g, k));
    SelectKeepsOrder(KindOf, EventKey, g, k);
    IncreasingUnique(own, Select(KindOf, g, k));
  }

  lemma GroupDistinct(es: seq<Event>, g: seq<Event>)
    requires NoDuplicates(es) && OwnGroup(es, g)
    ensures NoDuplicates(g)
  {
    var own := Select(CorrOf, es, CorrOf(g[0]));
    SelectNoDuplicates(CorrOf, es, CorrOf(g[0]));
    SortCorrect(EventKey, own);
    PermutationNoDuplicates(own, g);
  }

  // ------------------------------------------------------------ the slots compared

  lemma {:induction false} SelectInsideGroup(es: seq<Event>, c: string, kind: EventType)
    ensures Select(KindOf, es, (c, kind)) == Select(KindOf, Select(CorrOf, es, c), (c, kind))
  {
    if |es| > 0 {
      var init, last := es[..|es| - 1], es[|es| - 1];
      SelectInsideGroup(init, c, kind);
      SelectAppend(KindOf, Select(CorrOf, init, c), last, (c, kind));
    }
  }

  /** Slot i of the correlated run shows the events of group i, renumbered and re-parented. */
  lemma SlotOfGroup(es: seq<Event>, i: nat, kind: EventType)
    requires i < |Groups(es)| && |Groups(es)[i]| > 0
    ensures MapSeq(Erase, Slot(InOrder(Correlated(es)), i, kind))
         == MapSeq(Erase, Select(KindOf, Groups(es)[i], (CorrOf(Groups(es)[i][0]), kind)))
  {
    var g := Groups(es)[i];
    var k := (CorrOf(g[0]), kind);
    CorrelatedInOrder(es);
    CorrelatedKeys(es, i);
    OutShape(es);
    RunsSelect(CorrOf, OutGroups(es), i);
    SelectInsideGroup(Correlated(es), k.0, kind);
    var out := OutGroups(es)[i];
    forall j | 0 <= j < |g| ensures Erase(out[j]) == Erase(g[j]) {
      OutAt(es, i, j);
    }
    assert MapSeq(Erase, out) == MapSeq(Erase, g);
    SelectMap(Erase, KindOf, KindOf, out, k);
    SelectMap(Erase, KindOf, KindOf, g, k);
  }

  lemma SamePayloads(ignore: set<string>, kind: EventType, a: seq<Event>, b: seq<Event>, c: seq<Event>)
    requires MapSeq(Erase, b) == MapSeq(Erase, c)
    ensures SlotsAgree(ignore, kind, a, MapSeq(Redact, b)) <==> SlotsAgree(ignore, kind, a, MapSeq(Redact, c))
  {
    assert |b| == |MapSeq(Erase, b)| == |MapSeq(Erase, c)| == |c|;
    forall i | 0 <= i < |b| ensures MapSeq(Redact, b)[i].payload == MapSeq(Redact, c)[i].payload {
      assert MapSeq(Erase, b)[i] == MapSeq(Erase, c)[i];
    }
  }

  /** At index i the report compares what the i-th requests of both sides produced. */
  lemma SlotsCompared(ls: seq<Label>, run: string, source: seq<Event>, es: seq<Event>, ignore: set<string>, r: nat, i: nat, kind: EventType)
    requires Legal(ls) && RowsOf(Exec(ls), run, es) && OwnCorrelations(Exec(ls), run) && SqlKeyedAfter(Exec(ls), run)
    requires Finished(source) && RealIds(source) && OneRequestPerGroup(source)
    requires |Sends(ls, run)| == |Requests(source)| && Comparable(kind)
    requires SentAs(Exec(ls), run, r, i)
    ensures i < |Requests(source)| && Booked(Exec(ls))
    ensures SlotsAgree(ignore, kind, Slot(InOrder(source), i, kind), Slot(InOrder(Correlated(MapSeq(Redact, es))), i, kind))
        <==> SlotsAgree(ignore, kind, Expected(source, i, kind), MapSeq(Redact, Outcomes(Exec(ls), r, kind)))
  {
    var s := Exec(ls);
    AlwaysLive(ls);
    SentInOrder(ls, run);
    SentAreLeaders(s, run, es);
    LeadersHead(es, Sent(s, run));
    SourceKeys(source);
    FinishedShape(source);
    GroupsShape(es);
    assert Groups(es)[i] in Groups(es);
    assert HttpBooked(s, s.requests[r].sent);
    GroupOutcomes(s, run, es, Groups(es)[i], r, kind);
    SlotOfGroup(es, i, kind);
    SlotRedacted(es, i, kind);
    SamePayloads(ignore, kind, Expected(source, i, kind), Slot(InOrder(Correlated(es)), i, kind), Outcomes(s, r, kind));
  }

  lemma SlotRedacted(es: seq<Event>, i: nat, kind: EventType)
    ensures Slot(InOrder(Correlated(MapSeq(Redact, es))), i, kind) == MapSeq(Redact, Slot(InOrder(Correlated(es)), i, kind))
  {
    RedactNatural(es);
    CorrelateNatural(Redact, p => p, es);
    SlotNatural(Redact, Correlated(es), i, kind);
  }

  lemma SenderOf(s: State, run: string, i: nat) returns (r: nat)
    requires Booked(s) && i < |Sent(s, run)|
    ensures SentAs(s, run, r, i)
  {
    var x := Sent(s, run)[i];
    assert x in Sent(s, run);
    SentMembers(s, run, x);
    r := RequestOf(s, run, x);
    RequestOnce(s, r, x);
  }

  lemma StoredIds(s: State, run: string, es: seq<Event>)
    requires Live(s) && RowsOf(s, run, es)
    ensures RealIds(Correlated(MapSeq(Redact, es)))
  {
    RowsUniqueIds(s, run, es);
    RowsMembers(s, run, es);
    var stored := MapSeq(Redact, es);
    assert UniqueIds(stored);
    CorrelatedUniqueIds(stored);
    forall x | x in Correlated(stored) ensures x.eventId != "" {
      var e := InputOf(stored, x);
      assert x.eventId == Erase(x).eventId == Erase(e).eventId == e.eventId;
      var k :| 0 <= k < |stored| && stored[k] == e;
      assert es[k] in es && es[k].eventId == e.eventId;
      IssuedId(s, es[k]);
    }
  }

  lemma IssuedId(s: State, e: Event)
    requires Identified(s) && (e in s.http || e in s.sql)
    ensures e.eventId != ""
  {
    if e in s.http {
      var k :| 0 <= k < |s.http| && s.http[k] == e;
      assert Issued(s, s.http[k]);
    } else {
      var k :| 0 <= k < |s.sql| && s.sql[k] == e;
      assert Issued(s, s.sql[k]);
    }
  }

  /** Every request sent did what the source's request at its place did. */
  ghost predicate SameOutcomes(ignore: set<string>, source: seq<Event>, s: State, run: string)
    requires Booked(s)
  {
    forall r: nat, i: nat, kind :: SentAs(s, run, r, i) && i < |Requests(source)| && Comparable(kind) ==>
      SlotsAgree(ignore, kind, Expected(source, i, kind), MapSeq(Redact, Outcomes(s, r, kind)))
  }

  lemma AgreementAt(ls: seq<Label>, run: string, source: seq<Event>, es: seq<Event>, ignore: set<string>, i: nat, kind: EventType)
    requires Legal(ls) && RowsOf(Exec(ls), run, es) && OwnCorrelations(Exec(ls), run) && SqlKeyedAfter(Exec(ls), run)
    requires Finished(source) && RealIds(source) && OneRequestPerGroup(source)
    requires |Sends(ls, run)| == |Requests(source)| && Comparable(kind)
    requires Booked(Exec(ls)) && SameOutcomes(ignore, source, Exec(ls), run)
    ensures SlotsAgree(ignore, kind, Slot(InOrder(source), i, kind), Slot(InOrder(Correlated(MapSeq(Redact, es))), i, kind))
  {
    SentInOrder(ls, run);
    if i < |Requests(source)| {
      var r := SenderOf(Exec(ls), run, i);
      SlotsCompared(ls, run, source, es, ignore, r, i, kind);
    } else {
      BeyondTheLast(ls, run, source, es, i, kind);
    }
  }

  lemma BeyondTheLast(ls: seq<Label>, run: string, source: seq<Event>, es: seq<Event>, i: nat, kind: EventType)
    requires Legal(ls) && RowsOf(Exec(ls), run, es) && OwnCorrelations(Exec(ls), run) && SqlKeyedAfter(Exec(ls), run)
    requires Finished(source) && RealIds(source) && OneRequestPerGroup(source)
    requires |Sends(ls, run)| == |Requests(source)| <= i
    ensures Slot(InOrder(source), i, kind) == [] && Slot(InOrder(Correlated(MapSeq(Redact, es))), i, kind) == []
  {
    ReplayAlignment(ls, run, source, es);
    SourceKeys(source);
    FinishedShape(source);
    CorrelatedInOrder(es);
    SlotRedacted(es, i, kind);
    OutShape(es);
    RunsKeys(CorrOf, OutGroups(es));
  }

  lemma AgreementAnywhere(ls: seq<Label>, run: string, source: seq<Event>, es: seq<Event>, ignore: set<string>)
    requires Legal(ls) && RowsOf(Exec(ls), run, es) && OwnCorrelations(Exec(ls), run) && SqlKeyedAfter(Exec(ls), run)
    requires Finished(source) && RealIds(source) && OneRequestPerGroup(source)
    requires |Sends(ls, run)| == |Requests(source)|
    requires Booked(Exec(ls)) && SameOutcomes(ignore, source, Exec(ls), run)
    ensures SemanticallyEqual(ignore, source, Correlated(MapSeq(Redact, es)))
  {
    forall i: nat, kind | Comparable(kind)
      ensures SlotsAgree(ignore, kind, Slot(InOrder(source), i, kind), Slot(InOrder(Correlated(MapSeq(Redact, es))), i, kind))
    {
      AgreementAt(ls, run, source, es, ignore, i, kind);
    }
  }

  lemma OutcomesAnywhere(ls: seq<Label>, run: string, source: seq<Event>, es: seq<Event>, ignore: set<string>)
    requires Legal(ls) && RowsOf(Exec(ls), run, es) && OwnCorrelations(Exec(ls), run) && SqlKeyedAfter(Exec(ls), run)
    requires Finished(source) && RealIds(source) && OneRequestPerGroup(source)
    requires |Sends(ls, run)| == |Requests(source)|
    requires Booked(Exec(ls)) && SemanticallyEqual(ignore, source, Correlated(MapSeq(Redact, es)))
    ensures SameOutcomes(ignore, source, Exec(ls), run)
  {
    forall r: nat, i: nat, kind | SentAs(Exec(ls), run, r, i) && i < |Requests(source)| && Comparable(kind)
      ensures SlotsAgree(ignore, kind, Expected(source, i, kind), MapSeq(Redact, Outcomes(Exec(ls), r, kind)))
    {
      SlotsCompared(ls, run, source, es, ignore, r, i, kind);
    }
  }

  /** The report of a replay, whatever its concurrency and interleaving and however its rows
      arrived, is all MATCH if and only if for every i the i-th request sent got the reply and
      the SQL results that the source's i-th request got: as many, in order, without error and
      equal in normal form once redacted as the store redacts them. */
  lemma ReplayReportExactly(ls: seq<Label>, run: string, source: seq<Event>, es: seq<Event>, ignore: set<string>)
    requires Legal(ls) && RowsOf(Exec(ls), run, es) && OwnCorrelations(Exec(ls), run) && SqlKeyedAfter(Exec(ls), run)
    requires Finished(source) && RealIds(source) && OneRequestPerGroup(source)
    requires |Sends(ls, run)| == |Requests(source)|
    ensures Booked(Exec(ls))
    ensures AllMatch(Report(ignore, source, Correlated(MapSeq(Redact, es)))) <==> SameOutcomes(ignore, source, Exec(ls), run)
  {
    AlwaysLive(ls);
    StoredIds(Exec(ls), run, es);
    AllMatchExactly(ignore, source, Correlated(MapSeq(Redact, es)));
    if SemanticallyEqual(ignore, source, Correlated(MapSeq(Redact, es))) {
      OutcomesAnywhere(ls, run, source, es, ignore);
    }
    if SameOutcomes(ignore, source, Exec(ls), run) {
      AgreementAnywhere(ls, run, source, es, ignore);
    }
  }
}
