/** infrareplay/recording/correlate.py, `_link`: which parent a gap is filled with. */
module Parents {
  import opened Sequences
  import opened Events
  import opened Correlate
  import opened CorrelateLaws

  /** The first request of a group is at `k`. */
  predicate FirstRequestAt(g: seq<Event>, k: nat) {
    k < |g| && g[k].kind == HttpRequest && forall m :: 0 <= m < k ==> g[m].kind != HttpRequest
  }

  /** The last query before position `j` is at `k`. */
  predicate LastQueryAt(g: seq<Event>, j: nat, k: nat) {
    k < j <= |g| && g[k].kind == PgQuery && forall m :: k < m < j ==> g[m].kind != PgQuery
  }

  lemma {:induction false} RootAt(g: seq<Event>, k: nat)
    requires FirstRequestAt(g, k)
    ensures Root(g) == Some(g[k])
  {
    var n := |g| - 1;
    if k < n {
      RootAt(g[..n], k);
    } else {
      NoRoot(g[..n]);
    }
  }

  lemma {:induction false} NoRoot(g: seq<Event>)
    requires forall m :: 0 <= m < |g| ==> g[m].kind != HttpRequest
    ensures Root(g) == None
  {
    if |g| > 0 {
      NoRoot(g[..|g| - 1]);
    }
  }

  lemma {:induction false} QueryAt(g: seq<Event>, j: nat, k: nat)
    requires LastQueryAt(g, j, k)
    ensures LastQuery(g, j) == Some(g[k])
  {
    if k < j - 1 {
      QueryAt(g, j - 1, k);
    }
  }

  lemma {:induction false} QuerySomewhere(g: seq<Event>, j: nat) returns (k: nat)
    requires j <= |g| && LastQuery(g, j).Some?
    ensures LastQueryAt(g, j, k)
  {
    if g[j - 1].kind.PgQuery? {
      k := j - 1;
    } else {
      k := QuerySomewhere(g, j - 1);
    }
  }

  /** An event without a recorded parent: a request stays a root; a result goes under the last
      query before it in its group; everything else, and a result with no query before it, goes
      under the group's first request, or stays without one if there is none. */
  lemma ParentsFilled(es: seq<Event>, i: nat, j: nat)
    requires i < |Groups(es)| && j < |Groups(es)[i]|
    requires Groups(es)[i][j].parent == None || Groups(es)[i][j].parent == Some("")
    ensures |OutGroups(es)| == |Groups(es)| && |OutGroups(es)[i]| == |Groups(es)[i]|
    ensures var g, parent := Groups(es)[i], OutGroups(es)[i][j].parent;
        && (g[j].kind == HttpRequest ==> parent == None)
        && (g[j].kind == PgResult ==> forall k: nat :: LastQueryAt(g, j, k) ==> parent == Some(g[k].eventId))
        && (g[j].kind != HttpRequest && (g[j].kind == PgResult ==> forall k: nat :: !LastQueryAt(g, j, k)) ==>
              && (forall k: nat :: FirstRequestAt(g, k) ==> parent == Some(g[k].eventId))
              && ((forall m :: 0 <= m < |g| ==> g[m].kind != HttpRequest) ==> parent == None))
  {
    var g := Groups(es)[i];
    OutAt(es, i, j);
    forall k: nat | LastQueryAt(g, j, k) ensures LastQuery(g, j) == Some(g[k]) {
      QueryAt(g, j, k);
    }
    forall k: nat | FirstRequestAt(g, k) ensures Root(g) == Some(g[k]) {
      RootAt(g, k);
    }
    if LastQuery(g, j).Some? {
      var k := QuerySomewhere(g, j);
    }
    if forall m :: 0 <= m < |g| ==> g[m].kind != HttpRequest {
      NoRoot(g);
    }
  }
}
