/** What a live request's correlated group reads like, over every capture run. */
module LiveShape {
  import opened Sequences
  import opened Events
  import opened Correlate
  import opened CorrelateLaws
  import opened Traffic
  import opened Timing

  // ---------------------------------------------------------- the story of a request

  function Positions(owner: seq<nat>, r: nat): seq<nat> {
    if |owner| == 0 then []
    else
      var n := |owner| - 1;
      var rest := Positions(owner[..n], r);
      if owner[n] == r then rest + [n] else rest
  }

  lemma {:induction false} PositionsShape(owner: seq<nat>, r: nat)
    ensures forall i :: 0 <= i < |Positions(owner, r)| ==> Positions(owner, r)[i] < |owner| && owner[Positions(owner, r)[i]] == r
    ensures forall i, j :: 0 <= i < j < |Positions(owner, r)| ==> Positions(owner, r)[i] < Positions(owner, r)[j]
  {
    if |owner| > 0 {
      var init := owner[..|owner| - 1];
      PositionsShape(init, r);
      assert forall i :: 0 <= i < |Positions(init, r)| ==> init[Positions(init, r)[i]] == owner[Positions(init, r)[i]];
    }
  }

  lemma {:induction false} PositionsComplete(owner: seq<nat>, r: nat, k: nat) returns (i: nat)
    requires k < |owner| && owner[k] == r
    ensures i < |Positions(owner, r)| && Positions(owner, r)[i] == k
  {
    var n := |owner| - 1;
    if k == n {
      i := |Positions(owner[..n], r)|;
    } else {
      i := PositionsComplete(owner[..n], r, k);
    }
  }

  /** The SQL events of request `r`, in emission order. */
  function OwnSql(s: State, r: nat): (own: seq<Event>)
    requires |s.sqlOwner| == |s.sql|
  {
    var at := Positions(s.sqlOwner, r);
    PositionsShape(s.sqlOwner, r);
    seq(|at|, i requires 0 <= i < |at| => s.sql[at[i]])
  }

  predicate Replied(s: State, r: nat) {
    r < |s.requests| && s.requests[r].reply.Some?
  }

  /** Request, its SQL, response. */
  function Story(s: State, r: nat): seq<Event>
    requires Booked(s) && Replied(s, r)
  {
    [s.http[s.requests[r].sent]] + OwnSql(s, r) + [s.http[s.requests[r].reply.value]]
  }

  /** No other request of the recording uses the correlation id of `r`. */
  ghost predicate Alone(s: State, r: nat)
    requires r < |s.requests|
  {
    forall q :: 0 <= q < |s.requests| && q != r && s.requests[q].recording == s.requests[r].recording ==>
      s.requests[q].correlation != s.requests[r].correlation
  }

  /** `es` holds everything captured for `recording`, in any arrival order. */
  ghost predicate RowsOf(s: State, recording: string, es: seq<Event>) {
    multiset(es) == multiset(Select(RecordingOf, s.http, recording) + Select(RecordingOf, s.sql, recording))
  }

  // ---------------------------------------------------------- which events they are

  lemma UniqueNoDuplicates(es: seq<Event>)
    requires UniqueIds(es)
    ensures NoDuplicates(es)
  {
  }

  lemma RowsMembers(s: State, recording: string, es: seq<Event>)
    requires Live(s) && RowsOf(s, recording, es)
    ensures NoDuplicates(es)
    ensures forall e :: e in es <==> e.recordingId == recording && (e in s.http || e in s.sql)
  {
    var h, q := Select(RecordingOf, s.http, recording), Select(RecordingOf, s.sql, recording);
    SelectMembers(RecordingOf, s.http, recording);
    SelectMembers(RecordingOf, s.sql, recording);
    UniqueNoDuplicates(s.http);
    UniqueNoDuplicates(s.sql);
    SelectNoDuplicates(RecordingOf, s.http, recording);
    SelectNoDuplicates(RecordingOf, s.sql, recording);
    forall i, j | 0 <= i < |h| && 0 <= j < |q| ensures h[i] != q[j] {
      assert h[i] in s.http && q[j] in s.sql;
    }
    assert NoDuplicates(h + q);
    PermutationNoDuplicates(h + q, es);
    MultisetMembership(es, h + q);
  }

  lemma OwnSqlMembers(s: State, r: nat, e: Event)
    requires Booked(s) && r < |s.requests|
    ensures e in OwnSql(s, r) <==> e in s.sql && 0 <= e.sequence < |s.sql| && s.sqlOwner[e.sequence] == r
  {
    var at := Positions(s.sqlOwner, r);
    PositionsShape(s.sqlOwner, r);
    if e in s.sql {
      var k :| 0 <= k < |s.sql| && s.sql[k] == e;
      assert SqlBooked(s, k);
      if s.sqlOwner[k] == r {
        var i := PositionsComplete(s.sqlOwner, r, k);
        assert OwnSql(s, r)[i] == e;
      }
    }
    if e in OwnSql(s, r) {
      var i :| 0 <= i < |at| && s.sql[at[i]] == e;
      assert SqlBooked(s, at[i]);
    }
  }

  /** An SQL event is of `r` exactly when it carries its recording and correlation id. */
  lemma SqlOfAlone(s: State, r: nat, e: Event)
    requires Booked(s) && r < |s.requests| && Alone(s, r) && e in s.sql
    ensures e in OwnSql(s, r) <==> e.recordingId == s.requests[r].recording && e.correlationId == s.requests[r].correlation
  {
    var k :| 0 <= k < |s.sql| && s.sql[k] == e;
    assert SqlBooked(s, k);
    OwnSqlMembers(s, r, e);
  }

  lemma HttpOfAlone(s: State, r: nat, e: Event)
    requires Booked(s) && Replied(s, r) && Alone(s, r) && e in s.http
    ensures (e == s.http[s.requests[r].sent] || e == s.http[s.requests[r].reply.value])
        <==> e.recordingId == s.requests[r].recording && e.correlationId == s.requests[r].correlation
  {
    var k :| 0 <= k < |s.http| && s.http[k] == e;
    assert HttpBooked(s, k) && HttpBooked(s, s.requests[r].sent) && HttpBooked(s, s.requests[r].reply.value);
  }

  lemma StoryMembers(s: State, r: nat, e: Event)
    requires Booked(s) && Replied(s, r) && Alone(s, r)
    ensures e in Story(s, r) <==>
        && (e in s.http || e in s.sql)
        && e.recordingId == s.requests[r].recording && e.correlationId == s.requests[r].correlation
  {
    var a, z := s.http[s.requests[r].sent], s.http[s.requests[r].reply.value];
    assert e in Story(s, r) <==> e == a || e in OwnSql(s, r) || e == z;
    OwnSqlMembers(s, r, e);
    if e in s.sql {
      SqlOfAlone(s, r, e);
    }
    if e in s.http {
      HttpOfAlone(s, r, e);
    }
  }

  lemma OwnSqlIncreases(s: State, r: nat, i: nat, j: nat)
    requires Live(s) && r < |s.requests| && i < j < |OwnSql(s, r)|
    ensures Less(EventKey(OwnSql(s, r)[i]), EventKey(OwnSql(s, r)[j]))
  {
    var at := Positions(s.sqlOwner, r);
    PositionsShape(s.sqlOwner, r);
    assert SqlBooked(s, at[i]) && SqlBooked(s, at[j]);
  }

  lemma StoryDistinct(s: State, r: nat)
    requires Live(s) && Replied(s, r)
    ensures NoDuplicates(Story(s, r))
  {
    var own, story := OwnSql(s, r), Story(s, r);
    forall i | 0 <= i < |own| ensures own[i] in s.sql {
      OwnSqlMembers(s, r, own[i]);
    }
    assert s.http[s.requests[r].sent].eventId != s.http[s.requests[r].reply.value].eventId;
    forall i, j | 0 <= i < j < |own| ensures own[i] != own[j] {
      OwnSqlIncreases(s, r, i, j);
    }
  }

  /** The rows of a recording with the request's correlation id are exactly its story. */
  lemma StoryIsGroup(s: State, r: nat, es: seq<Event>)
    requires Live(s) && Replied(s, r) && Alone(s, r) && RowsOf(s, s.requests[r].recording, es)
    ensures multiset(Select(CorrOf, es, s.requests[r].correlation)) == multiset(Story(s, r))
  {
    var c := s.requests[r].correlation;
    RowsMembers(s, s.requests[r].recording, es);
    SelectNoDuplicates(CorrOf, es, c);
    StoryDistinct(s, r);
    SelectMembers(CorrOf, es, c);
    forall e ensures e in Select(CorrOf, es, c) <==> e in Story(s, r) {
      StoryMembers(s, r, e);
    }
    SameElements(Select(CorrOf, es, c), Story(s, r));
  }

  // ------------------------------------------------------------------ ordering

  ghost predicate Increasing(es: seq<Event>) {
    forall i, j :: 0 <= i < j < |es| ==> Less(EventKey(es[i]), EventKey(es[j]))
  }

  /** The two producers' keys agree where the request hands over to its SQL and back. Clocks
      alone cannot break this: only a timestamp tie across the producers can. */
  predicate Handovers(s: State, r: nat)
    requires Booked(s) && Replied(s, r)
  {
    var own := OwnSql(s, r);
    |own| > 0 ==>
      && Less(EventKey(s.http[s.requests[r].sent]), EventKey(own[0]))
      && Less(EventKey(own[|own| - 1]), EventKey(s.http[s.requests[r].reply.value]))
  }

  lemma RequestBeforeReply(s: State, r: nat)
    requires Live(s) && Replied(s, r)
    ensures Less(EventKey(s.http[s.requests[r].sent]), EventKey(s.http[s.requests[r].reply.value]))
  {
    var q := s.requests[r];
    assert HttpBooked(s, q.sent) && HttpBooked(s, q.reply.value);
    HttpKeysIncrease(s, q.sent, q.reply.value);
  }

  lemma StoryInOrder(s: State, r: nat)
    requires Live(s) && Replied(s, r) && Handovers(s, r)
    ensures Increasing(Story(s, r))
  {
    var own := OwnSql(s, r);
    forall i, j | 0 <= i < j < |own| ensures Less(EventKey(own[i]), EventKey(own[j])) {
      OwnSqlIncreases(s, r, i, j);
    }
    RequestBeforeReply(s, r);
    ChainIncreases(s.http[s.requests[r].sent], own, s.http[s.requests[r].reply.value]);
  }

  lemma StoryHandsOver(s: State, r: nat)
    requires Booked(s) && Replied(s, r) && Increasing(Story(s, r))
    ensures Handovers(s, r)
  {
    var own, story := OwnSql(s, r), Story(s, r);
    if |own| > 0 {
      assert story[0] == s.http[s.requests[r].sent] && story[1] == own[0];
      assert story[|own|] == own[|own| - 1] && story[|own| + 1] == s.http[s.requests[r].reply.value];
    }
  }

  lemma StoryIncreases(s: State, r: nat)
    requires Live(s) && Replied(s, r)
    ensures Increasing(Story(s, r)) <==> Handovers(s, r)
  {
    if Increasing(Story(s, r)) {
      StoryHandsOver(s, r);
    }
    if Handovers(s, r) {
      StoryInOrder(s, r);
    }
  }

  lemma ChainIncreases(a: Event, own: seq<Event>, z: Event)
    requires Increasing(own) && Less(EventKey(a), EventKey(z))
    requires |own| > 0 ==> Less(EventKey(a), EventKey(own[0])) && Less(EventKey(own[|own| - 1]), EventKey(z))
    ensures Increasing([a] + own + [z])
  {
    var n := |own|;
    forall k | 0 <= k < n ensures Less(EventKey(a), EventKey(own[k])) && Less(EventKey(own[k]), EventKey(z)) {
      assert k > 0 ==> Less(EventKey(own[0]), EventKey(own[k]));
      assert k < n - 1 ==> Less(EventKey(own[k]), EventKey(own[n - 1]));
    }
  }

  /** Clock premise: the SQL runs strictly between request and response. */
  lemma StrictClockHandsOver(s: State, r: nat)
    requires Booked(s) && Replied(s, r)
    requires forall k :: 0 <= k < |s.sql| && s.sqlOwner[k] == r ==>
        s.http[s.requests[r].sent].timestamp < s.sql[k].timestamp < s.http[s.requests[r].reply.value].timestamp
    ensures Handovers(s, r)
  {
    PositionsShape(s.sqlOwner, r);
  }

  lemma IncreasingSorts(es: seq<Event>, story: seq<Event>)
    requires multiset(es) == multiset(story) && Increasing(story)
    ensures SortBy(EventKey, es) == story
  {
    MultisetMembership(es, story);
    forall x, y | x in story && y in story && EventKey(x) == EventKey(y) ensures x == y {
      var i :| 0 <= i < |story| && story[i] == x;
      var j :| 0 <= j < |story| && story[j] == y;
    }
    SortPermutation(EventKey, story, es);
    SortSorted(EventKey, story);
  }

  /** One arrival order: HTTP rows first. */
  function HttpFirst(s: State, recording: string): seq<Event> {
    Select(RecordingOf, s.http, recording) + Select(RecordingOf, s.sql, recording)
  }

  /** A tie inside a group lets two arrival orders disagree. */
  lemma TieBreaksByArrival(rows: seq<Event>, x: Event, y: Event, story: seq<Event>) returns (es: seq<Event>)
    requires x in rows && y in rows && x != y && CorrOf(x) == CorrOf(y) && EventKey(x) == EventKey(y)
    ensures multiset(es) == multiset(rows) && SortedGroup(es, CorrOf(x)) != story
  {
    var rest := BringForward(rows, x, y);
    TiedOrdersDiffer(x, y, rest);
    es := [x, y] + rest;
    if SortedGroup(es, CorrOf(x)) == story {
      es := [y, x] + rest;
    }
  }

  lemma Misordered(es: seq<Event>, c: string, story: seq<Event>, i: nat, j: nat)
    requires i < j < |story| && !Leq(EventKey(story[i]), EventKey(story[j]))
    ensures SortedGroup(es, c) != story
  {
    SortCorrect(EventKey, Select(CorrOf, es, c));
  }

  /** A story out of order is not what some arrival order yields. */
  lemma NotIncreasing(s: State, r: nat) returns (es: seq<Event>)
    requires Live(s) && Replied(s, r) && Alone(s, r) && !Increasing(Story(s, r))
    ensures RowsOf(s, s.requests[r].recording, es)
    ensures SortedGroup(es, s.requests[r].correlation) != Story(s, r)
  {
    var story := Story(s, r);
    es := HttpFirst(s, s.requests[r].recording);
    var i, j :| 0 <= i < j < |story| && !Less(EventKey(story[i]), EventKey(story[j]));
    if EventKey(story[i]) == EventKey(story[j]) {
      StoryDistinct(s, r);
      StoryMembers(s, r, story[i]);
      StoryMembers(s, r, story[j]);
      RowsMembers(s, s.requests[r].recording, es);
      es := TieBreaksByArrival(es, story[i], story[j], story);
    } else {
      Misordered(es, s.requests[r].correlation, story, i, j);
    }
  }

  /** The group reads request, SQL in emission order, response, whatever order the rows
      arrived in, exactly when the producers' keys agree at the two handovers. */
  lemma LiveGroupExactly(ls: seq<Label>, r: nat)
    requires Legal(ls) && Replied(Exec(ls), r) && Alone(Exec(ls), r)
    ensures Booked(Exec(ls))
    ensures var s := Exec(ls); var q := s.requests[r];
        (forall es :: RowsOf(s, q.recording, es) ==> SortedGroup(es, q.correlation) == Story(s, r)) <==> Handovers(s, r)
  {
    var s := Exec(ls);
    var q := s.requests[r];
    AlwaysLive(ls);
    StoryIncreases(s, r);
    if Handovers(s, r) {
      forall es | RowsOf(s, q.recording, es) ensures SortedGroup(es, q.correlation) == Story(s, r) {
        StoryIsGroup(s, r, es);
        IncreasingSorts(Select(CorrOf, es, q.correlation), Story(s, r));
      }
    } else {
      var es := NotIncreasing(s, r);
    }
  }

  // ------------------------------------------------------------------ reading

  lemma PositionsAppendPair(owner: seq<nat>, r: nat)
    requires |owner| >= 2 && owner[|owner| - 2] == owner[|owner| - 1]
    ensures var n := |owner| - 2; var rest := Positions(owner[..n], r);
        Positions(owner, r) == if owner[n] == r then rest + [n, n + 1] else rest
  {
    var n := |owner| - 2;
    assert owner[..n + 1][..n] == owner[..n];
  }

  ghost predicate PairedPositions(at: seq<nat>) {
    |at| % 2 == 0 && forall i :: 0 <= i < |at| && i % 2 == 0 ==> at[i] % 2 == 0 && at[i + 1] == at[i] + 1
  }

  /** Owners come two by two. */
  predicate TwoByTwo(owner: seq<nat>) {
    |owner| == 0 || (|owner| >= 2 && owner[|owner| - 2] == owner[|owner| - 1] && TwoByTwo(owner[..|owner| - 2]))
  }

  lemma AppendPairedPositions(at: seq<nat>, n: nat)
    requires PairedPositions(at) && n % 2 == 0
    ensures PairedPositions(at + [n, n + 1])
  {
    var more := at + [n, n + 1];
    forall i | 0 <= i < |more| && i % 2 == 0 ensures more[i] % 2 == 0 && more[i + 1] == more[i] + 1 {
      assert i < |at| ==> at[i] % 2 == 0;
    }
  }

  /** The positions of one request come in neighbouring pairs. */
  lemma {:induction false} PositionsPaired(owner: seq<nat>, r: nat)
    requires TwoByTwo(owner)
    ensures |owner| % 2 == 0 && PairedPositions(Positions(owner, r))
  {
    if |owner| > 0 {
      var n := |owner| - 2;
      PositionsPaired(owner[..n], r);
      PositionsAppendPair(owner, r);
      AppendPairedPositions(Positions(owner[..n], r), n);
    }
  }

  lemma OwnersPaired(s: State, k: nat)
    requires Booked(s) && Paired(s) && k < |s.sqlOwner| && k % 2 == 0
    ensures k + 1 < |s.sqlOwner| && s.sqlOwner[k] == s.sqlOwner[k + 1]
    ensures s.sql[k].kind.PgQuery? && s.sql[k].parent.None?
    ensures s.sql[k + 1].kind.PgResult? && s.sql[k + 1].parent == Some(s.sql[k].eventId)
  {
    assert PairAt(s, k);
    assert PairAt(s, k + 1);
  }

  lemma {:induction false} SqlTwoByTwo(s: State, n: nat)
    requires Booked(s) && Paired(s) && n % 2 == 0 && n <= |s.sqlOwner|
    ensures TwoByTwo(s.sqlOwner[..n])
  {
    if n > 0 {
      SqlTwoByTwo(s, n - 2);
      OwnersPaired(s, n - 2);
      assert s.sqlOwner[..n][..n - 2] == s.sqlOwner[..n - 2];
    }
  }

  lemma OwnPositionsPaired(s: State, r: nat, i: nat)
    requires Booked(s) && Paired(s) && i < |Positions(s.sqlOwner, r)| && i % 2 == 0
    ensures var at := Positions(s.sqlOwner, r); i + 1 < |at| && at[i] % 2 == 0 && at[i] < |s.sqlOwner| && at[i + 1] == at[i] + 1
  {
    SqlTwoByTwo(s, |s.sqlOwner|);
    assert s.sqlOwner[..|s.sqlOwner|] == s.sqlOwner;
    PositionsShape(s.sqlOwner, r);
    PositionsPaired(s.sqlOwner, r);
  }

  lemma OwnEven(s: State, r: nat)
    requires Booked(s) && Paired(s)
    ensures |OwnSql(s, r)| % 2 == 0
  {
    SqlTwoByTwo(s, |s.sqlOwner|);
    assert s.sqlOwner[..|s.sqlOwner|] == s.sqlOwner;
    PositionsPaired(s.sqlOwner, r);
  }

  lemma OwnSqlPairs(s: State, r: nat, i: nat)
    requires Booked(s) && Paired(s) && r < |s.requests| && i < |OwnSql(s, r)| && i % 2 == 0
    ensures i + 1 < |OwnSql(s, r)|
    ensures OwnSql(s, r)[i].kind.PgQuery? && OwnSql(s, r)[i].parent.None?
    ensures OwnSql(s, r)[i + 1].kind.PgResult? && OwnSql(s, r)[i + 1].parent == Some(OwnSql(s, r)[i].eventId)
  {
    OwnPositionsPaired(s, r, i);
    OwnersPaired(s, Positions(s.sqlOwner, r)[i]);
  }

  /** A story reads request, (query, result)*, response. */
  ghost predicate Reads(story: seq<Event>) {
    && |story| >= 2 && |story| % 2 == 0
    && story[0].kind.HttpRequest?
    && story[|story| - 1].kind.HttpResponse?
    && forall i :: 0 < i < |story| - 1 ==> if i % 2 == 1 then story[i].kind.PgQuery? else story[i].kind.PgResult?
  }

  /** What the correlated group says about parents: queries and the response hang off the
      request, each result off the query just before it. */
  ghost predicate ParentsRead(story: seq<Event>) {
    forall i :: 0 <= i < |story| ==> LinkedParent(story, i) == ExpectedParent(story, i)
  }

  function ExpectedParent(story: seq<Event>, i: nat): Option<string>
    requires i < |story|
  {
    if i == 0 then None
    else if i < |story| - 1 && i % 2 == 0 then Some(story[i - 1].eventId)
    else Some(story[0].eventId)
  }

  lemma SqlReads(own: seq<Event>, i: nat)
    requires forall j: nat :: j < |own| && j % 2 == 0 ==> j + 1 < |own| && own[j].kind.PgQuery? && own[j + 1].kind.PgResult?
    requires i < |own|
    ensures if i % 2 == 0 then own[i].kind.PgQuery? else own[i].kind.PgResult?
  {
    if i % 2 == 1 {
      assert own[i - 1].kind.PgQuery?;
    }
  }

  lemma StoryReads(s: State, r: nat)
    requires Booked(s) && Paired(s) && Replied(s, r)
    ensures Reads(Story(s, r))
  {
    var own, story := OwnSql(s, r), Story(s, r);
    var q := s.requests[r];
    assert HttpBooked(s, q.sent) && HttpBooked(s, q.reply.value);
    forall j: nat | j < |own| && j % 2 == 0 ensures j + 1 < |own| && own[j].kind.PgQuery? && own[j + 1].kind.PgResult? {
      OwnSqlPairs(s, r, j);
    }
    OwnEven(s, r);
    forall i | 0 < i < |story| - 1 ensures if i % 2 == 1 then story[i].kind.PgQuery? else story[i].kind.PgResult? {
      SqlReads(own, i - 1);
    }
  }

  lemma StoryParents(s: State, r: nat)
    requires Live(s) && Replied(s, r)
    ensures ParentsRead(Story(s, r))
  {
    var story := Story(s, r);
    StoryReads(s, r);
    RootIsFirst(story);
    forall i | 0 <= i < |story| ensures LinkedParent(story, i) == ExpectedParent(story, i) {
      StoryParentAt(s, r, i);
    }
  }

  lemma UnrecordedQuery(g: seq<Event>, i: nat)
    requires i < |g| && g[i].kind.PgQuery? && g[i].parent.None? && Root(g).Some?
    ensures LinkedParent(g, i) == Some(Root(g).value.eventId)
  {
  }

  /** Which of its SQL events a story holds at an inner position, and under what parent. */
  lemma StorySqlAt(s: State, r: nat, i: nat)
    requires Booked(s) && Paired(s) && Identified(s) && Replied(s, r) && 0 < i < |Story(s, r)| - 1
    ensures i % 2 == 1 ==> Story(s, r)[i].kind.PgQuery? && Story(s, r)[i].parent.None?
    ensures i % 2 == 0 ==> Recorded(Story(s, r)[i]) && Story(s, r)[i].parent == Some(Story(s, r)[i - 1].eventId)
  {
    assert Story(s, r)[i] == OwnSql(s, r)[i - 1];
    if i % 2 == 1 {
      OwnSqlPairs(s, r, i - 1);
    } else {
      assert Story(s, r)[i - 1] == OwnSql(s, r)[i - 2];
      OwnSqlPairs(s, r, i - 2);
      OwnSqlIssued(s, r, i - 2);
    }
  }

  lemma StoryParentAt(s: State, r: nat, i: nat)
    requires Live(s) && Replied(s, r) && Reads(Story(s, r)) && Root(Story(s, r)) == Some(Story(s, r)[0])
    requires i < |Story(s, r)|
    ensures LinkedParent(Story(s, r), i) == ExpectedParent(Story(s, r), i)
  {
    if 0 < i < |Story(s, r)| - 1 {
      StorySqlAt(s, r, i);
      if i % 2 == 1 {
        UnrecordedQuery(Story(s, r), i);
      }
    } else {
      EndsParented(s, r);
    }
  }

  lemma EndsParented(s: State, r: nat)
    requires Live(s) && Replied(s, r)
    ensures s.http[s.requests[r].sent].parent.None? && s.http[s.requests[r].sent].eventId != ""
    ensures s.http[s.requests[r].reply.value].parent == Some(s.http[s.requests[r].sent].eventId)
  {
    var q := s.requests[r];
    assert HttpBooked(s, q.sent) && HttpBooked(s, q.reply.value);
    assert ResponseParent(s, q.sent) && ResponseParent(s, q.reply.value);
    assert Issued(s, s.http[q.sent]);
  }

  lemma OwnSqlIssued(s: State, r: nat, j: nat)
    requires Booked(s) && Identified(s) && r < |s.requests| && j < |OwnSql(s, r)|
    ensures OwnSql(s, r)[j].eventId != ""
  {
    PositionsShape(s.sqlOwner, r);
    assert Issued(s, s.sql[Positions(s.sqlOwner, r)[j]]);
  }

  /** Live group shape: over every capture run and every arrival order, a request whose
      correlation id is its own gets one group that reads request, (query, result)*,
      response, with every parent link in place. */
  lemma LiveGroupShape(ls: seq<Label>, r: nat, es: seq<Event>)
    requires Legal(ls) && Replied(Exec(ls), r) && Alone(Exec(ls), r)
    requires RowsOf(Exec(ls), Exec(ls).requests[r].recording, es)
    ensures Booked(Exec(ls))
    ensures Handovers(Exec(ls), r) ==> Story(Exec(ls), r) in Groups(es)
    ensures Reads(Story(Exec(ls), r)) && ParentsRead(Story(Exec(ls), r))
  {
    var s := Exec(ls);
    AlwaysLive(ls);
    StoryReads(s, r);
    StoryParents(s, r);
    assert HttpBooked(s, s.requests[r].sent);
    GroupsMembers(es);
    if Handovers(s, r) {
      LiveGroupExactly(ls, r);
      assert OwnGroup(es, Story(s, r));
    }
  }
}
