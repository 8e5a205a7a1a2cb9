/** Stock over every run of the shop: what is conserved, and exactly how far it drifts. */
module Conservation {
  import opened Inventory

  // A READ_THEN_WRITE update puts back what pricing saw. The total of available, reserved and
  // sold stock moves by how stale that was, and by nothing else.

  /** How far the step's UPDATE of `sku` starts from a value that is no longer there. */
  function Staleness(s: State, l: Label, sku: string): int
    requires Enabled(s, l)
  {
    match l
    case Update(t) =>
      var line := s.txns[t].lines[s.txns[t].phase.next];
      if s.txns[t].mode.ReadThenWrite? && line.sku == sku && sku in s.rows then line.seen - s.rows[sku] else 0
    case _ => 0
  }

  /** The step ends transaction `t` without committing it: any of the two 409s, or an abort. */
  predicate Undoes(s: State, l: Label, t: nat) {
    && Enabled(s, l)
    && match l
       case Decide(u) =>
         u == t && (s.txns[t].missing != [] || (s.txns[t].mode.ReadThenWrite? && ShortSeen(s.txns[t].lines) != []))
       case Finish(u) => u == t && s.txns[t].short != []
       case Abort(u) => u == t
       case _ => false
  }

  /** What the caller is told. */
  function Refusal(x: Txn, l: Label): Outcome {
    match l
    case Decide(_) => if x.missing != [] then UnknownSku(x.missing) else OutOfStock(ShortSeen(x.lines))
    case Finish(_) => OutOfStock(x.short)
    case _ => Aborted
  }

  /** The staleness of all updates of one transaction. */
  ghost function Drift(rows: map<string, int>, ls: seq<Label>, t: nat, sku: string): int
    requires Legal(rows, ls)
  {
    if |ls| == 0 then 0
    else
      var init, l := ls[..|ls| - 1], ls[|ls| - 1];
      RunStep(rows, ls);
      Drift(rows, init, t, sku) + if l == Update(t) then Staleness(Exec(rows, init), l, sku) else 0
  }

  /** The staleness of all updates of the run, without those that were undone. */
  ghost function Stale(rows: map<string, int>, ls: seq<Label>, sku: string): int
    requires Legal(rows, ls)
  {
    if |ls| == 0 then 0
    else
      var init, l := ls[..|ls| - 1], ls[|ls| - 1];
      RunStep(rows, ls);
      Stale(rows, init, sku) + Staleness(Exec(rows, init), l, sku)
      - if !l.Begin? && Undoes(Exec(rows, init), l, l.t) then Drift(rows, init, l.t, sku) else 0
  }

  /** Available, reserved by open checkouts, and in committed orders. */
  function Balance(s: State, sku: string): int
    requires sku in s.rows
  {
    s.rows[sku] + OpenReserved(s.txns, sku) + Sold(s.orders, sku)
  }

  // -------------------------------------------------------------- restoring

  /** A before-image is the current value plus what its owner took, less its drift `d`. */
  ghost predicate Restorable(s: State, x: Txn, d: int, sku: string) {
    && (x.phase.Pricing? ==> d == 0)
    && (x.phase.Reserving? ==>
          if sku in x.before && sku in s.rows then x.before[sku] + d == s.rows[sku] + Qty(x.taken, sku)
          else d == 0 && Qty(x.taken, sku) == 0)
  }

  ghost predicate RestorableAll(rows: map<string, int>, ls: seq<Label>, sku: string)
    requires Legal(rows, ls)
  {
    var s := Exec(rows, ls);
    forall t :: 0 <= t < |s.txns| ==> Restorable(s, s.txns[t], Drift(rows, ls, t, sku), sku)
  }

  lemma {:induction false} DriftUnborn(rows: map<string, int>, ls: seq<Label>, t: nat, sku: string)
    requires Legal(rows, ls) && t >= |Exec(rows, ls).txns|
    ensures Drift(rows, ls, t, sku) == 0
  {
    if |ls| > 0 {
      RunStep(rows, ls);
      DriftUnborn(rows, ls[..|ls| - 1], t, sku);
    }
  }

  /** The row as one of its own updates leaves it. */
  lemma RestorableWrite(s: State, t: nat, line: Line, value: int, d: int, sku: string)
    requires Locking(s) && t < |s.txns| && s.txns[t].phase.Reserving? && Restorable(s, s.txns[t], d, sku)
    requires line.sku in s.rows && sku in s.rows
    ensures var n := Write(s, t, line, value);
        Restorable(n, n.txns[t], if line.sku == sku then d + value + line.qty - s.rows[sku] else d, sku)
  {
    QtyAppend(s.txns[t].taken, line, sku);
  }

  lemma RestorableUpdate(s: State, l: Label, d: int, sku: string)
    requires Locking(s) && Enabled(s, l) && l.Update? && Progress(s.txns[l.t], s.rows.Keys)
    requires Restorable(s, s.txns[l.t], d, sku) && sku in s.rows
    ensures Restorable(Apply(s, l), Apply(s, l).txns[l.t], d + Staleness(s, l, sku), sku)
  {
    var x := s.txns[l.t];
    var line := x.lines[x.phase.next];
    if x.mode.ReadThenWrite? {
      RestorableWrite(s, l.t, line, line.seen - line.qty, d, sku);
    } else if Visible(s, l.t, line.sku) >= line.qty {
      RestorableWrite(s, l.t, line, s.rows[line.sku] - line.qty, d, sku);
    }
  }

  /** Only the holder of its lock changes a row that has a before-image. */
  lemma RowKept(s: State, l: Label, t: nat, sku: string)
    requires Locking(s) && Enabled(s, l) && t < |s.txns| && (l.Begin? || l.t != t)
    requires sku in s.rows && sku in s.txns[t].before
    ensures sku in Apply(s, l).rows && Apply(s, l).rows[sku] == s.rows[sku]
  {
  }

  lemma RestorableOther(s: State, l: Label, t: nat, d: int, sku: string)
    requires Locking(s) && Enabled(s, l) && t < |s.txns| && (l.Begin? || l.t != t)
    requires sku in s.rows && Restorable(s, s.txns[t], d, sku)
    ensures Restorable(Apply(s, l), Apply(s, l).txns[t], d, sku)
  {
    assert Apply(s, l).txns[t] == s.txns[t];
    if sku in s.txns[t].before {
      RowKept(s, l, t, sku);
    }
  }

  lemma RestorableOwn(s: State, l: Label, d: int, sku: string)
    requires Locking(s) && Enabled(s, l) && !l.Begin? && Progress(s.txns[l.t], s.rows.Keys)
    requires sku in s.rows && Restorable(s, s.txns[l.t], d, sku)
    ensures Restorable(Apply(s, l), Apply(s, l).txns[l.t], d + Staleness(s, l, sku), sku)
  {
    match l
    case Update(_) => RestorableUpdate(s, l, d, sku);
    case Decide(t) => NoImages(s, t);
    case _ =>
  }

  lemma RestorableAt(rows: map<string, int>, ls: seq<Label>, t: nat, sku: string)
    requires Legal(rows, ls) && |ls| > 0 && sku in rows && t < |Exec(rows, ls).txns|
    requires Legal(rows, ls[..|ls| - 1]) && RestorableAll(rows, ls[..|ls| - 1], sku)
    ensures Restorable(Exec(rows, ls), Exec(rows, ls).txns[t], Drift(rows, ls, t, sku), sku)
  {
    var init, l := ls[..|ls| - 1], ls[|ls| - 1];
    RunStep(rows, ls);
    AlwaysOrderly(rows, init);
    var s := Exec(rows, init);
    if t == |s.txns| {
      DriftUnborn(rows, init, t, sku);
    } else if !l.Begin? && l.t == t {
      RestorableOwn(s, l, Drift(rows, init, t, sku), sku);
    } else {
      RestorableOther(s, l, t, Drift(rows, init, t, sku), sku);
    }
  }

  lemma {:induction false} AlwaysRestorable(rows: map<string, int>, ls: seq<Label>, sku: string)
    requires Legal(rows, ls) && sku in rows
    ensures RestorableAll(rows, ls, sku)
  {
    if |ls| > 0 {
      RunStep(rows, ls);
      AlwaysRestorable(rows, ls[..|ls| - 1], sku);
      forall t | 0 <= t < |Exec(rows, ls).txns|
        ensures Restorable(Exec(rows, ls), Exec(rows, ls).txns[t], Drift(rows, ls, t, sku), sku)
      {
        RestorableAt(rows, ls, t, sku);
      }
    }
  }

  // ------------------------------------------------------------------- drift

  lemma BalanceSet(s: State, n: State, t: nat, sku: string)
    requires t < |s.txns| && |n.txns| == |s.txns| && n.txns == s.txns[t := n.txns[t]] && sku in s.rows && sku in n.rows
    ensures Balance(n, sku) - Balance(s, sku)
         == n.rows[sku] - s.rows[sku] + Reserved(n.txns[t], sku) - Reserved(s.txns[t], sku) + Sold(n.orders, sku) - Sold(s.orders, sku)
  {
    ReservedUpdate(s.txns, t, n.txns[t], sku);
  }

  lemma BalanceWrite(s: State, t: nat, line: Line, value: int, sku: string)
    requires t < |s.txns| && s.txns[t].phase.Reserving? && line.sku in s.rows && sku in s.rows
    ensures Balance(Write(s, t, line, value), sku)
         == Balance(s, sku) + if line.sku == sku then value + line.qty - s.rows[sku] else 0
  {
    BalanceSet(s, Write(s, t, line, value), t, sku);
    QtyAppend(s.txns[t].taken, line, sku);
  }

  lemma BalanceUpdate(s: State, l: Label, sku: string)
    requires Enabled(s, l) && l.Update? && Progress(s.txns[l.t], s.rows.Keys) && sku in s.rows
    ensures Balance(Apply(s, l), sku) == Balance(s, sku) + Staleness(s, l, sku)
  {
    var x := s.txns[l.t];
    var line := x.lines[x.phase.next];
    if x.mode.ReadThenWrite? {
      BalanceWrite(s, l.t, line, line.seen - line.qty, sku);
    } else if Visible(s, l.t, line.sku) >= line.qty {
      BalanceWrite(s, l.t, line, s.rows[line.sku] - line.qty, sku);
    } else {
      BalanceSet(s, Apply(s, l), l.t, sku);
    }
  }

  lemma BalanceRollback(s: State, t: nat, outcome: Outcome, d: int, sku: string)
    requires Locking(s) && t < |s.txns| && !s.txns[t].phase.Done? && sku in s.rows && Restorable(s, s.txns[t], d, sku)
    ensures Rollback(s, t, outcome).rows[sku] == s.rows[sku] + Reserved(s.txns[t], sku) - d
    ensures Balance(Rollback(s, t, outcome), sku) == Balance(s, sku) - d
  {
    if s.txns[t].phase.Pricing? {
      NoImages(s, t);
    }
    BalanceSet(s, Rollback(s, t, outcome), t, sku);
  }

  lemma BalanceCommit(s: State, t: nat, sku: string)
    requires t < |s.txns| && s.txns[t].phase.Reserving? && s.txns[t].taken == s.txns[t].lines && sku in s.rows
    ensures Balance(Commit(s, t), sku) == Balance(s, sku)
  {
    var n := Commit(s, t);
    BalanceSet(s, n, t, sku);
    SoldAppend(s.orders, n.orders[|s.orders|], sku);
  }

  lemma BalanceDecide(s: State, l: Label, sku: string)
    requires Locking(s) && Enabled(s, l) && l.Decide? && sku in s.rows && Progress(s.txns[l.t], s.rows.Keys)
    ensures Balance(Apply(s, l), sku) == Balance(s, sku)
  {
    NoImages(s, l.t);
    BalanceSet(s, Apply(s, l), l.t, sku);
  }

  lemma BalanceFinish(s: State, l: Label, d: int, sku: string)
    requires Locking(s) && Enabled(s, l) && l.Finish? && sku in s.rows
    requires Progress(s.txns[l.t], s.rows.Keys) && Restorable(s, s.txns[l.t], d, sku)
    ensures Balance(Apply(s, l), sku) == Balance(s, sku) - if s.txns[l.t].short != [] then d else 0
  {
    var x := s.txns[l.t];
    if x.short != [] {
      BalanceRollback(s, l.t, OutOfStock(x.short), d, sku);
    } else {
      assert x.lines[..|x.lines|] == x.lines;
      BalanceCommit(s, l.t, sku);
    }
  }

  lemma BalanceStep(s: State, l: Label, d: int, sku: string)
    requires Locking(s) && Enabled(s, l) && sku in s.rows
    requires !l.Begin? ==> Progress(s.txns[l.t], s.rows.Keys) && Restorable(s, s.txns[l.t], d, sku)
    ensures sku in Apply(s, l).rows
    ensures Balance(Apply(s, l), sku)
         == Balance(s, sku) + Staleness(s, l, sku) - if !l.Begin? && Undoes(s, l, l.t) then d else 0
  {
    match l
    case Begin(_, _, _) => ReservedAppend(s.txns, Apply(s, l).txns[|s.txns|], sku);
    case Read(t) => BalanceSet(s, Apply(s, l), t, sku);
    case Decide(_) => BalanceDecide(s, l, sku);
    case Update(_) => BalanceUpdate(s, l, sku);
    case Finish(_) => BalanceFinish(s, l, d, sku);
    case Abort(t) => BalanceRollback(s, t, Aborted, d, sku);
  }

  /** The drift law, over every run: any carts, any mix of modes, any interleaving, with
      commits, rejections and aborts anywhere. Stock is off by the staleness of the updates
      that were not undone. */
  lemma {:induction false} StockDrifts(rows: map<string, int>, ls: seq<Label>, sku: string)
    requires Legal(rows, ls) && sku in rows
    ensures sku in Exec(rows, ls).rows
    ensures Balance(Exec(rows, ls), sku) == rows[sku] + Stale(rows, ls, sku)
  {
    AlwaysOrderly(rows, ls);
    if |ls| > 0 {
      var init, l := ls[..|ls| - 1], ls[|ls| - 1];
      RunStep(rows, ls);
      StockDrifts(rows, init, sku);
      AlwaysOrderly(rows, init);
      AlwaysRestorable(rows, init, sku);
      BalanceStep(Exec(rows, init), l, if l.Begin? then 0 else Drift(rows, init, l.t, sku), sku);
    }
  }

  /** Stock is conserved exactly when the staleness cancels out. */
  lemma ConservedExactly(rows: map<string, int>, ls: seq<Label>, sku: string)
    requires Legal(rows, ls) && sku in rows
    ensures sku in Exec(rows, ls).rows
    ensures Balance(Exec(rows, ls), sku) == rows[sku] <==> Stale(rows, ls, sku) == 0
  {
    StockDrifts(rows, ls, sku);
  }

  /** Undoing a checkout, in every run, gives back what it took less its own drift, frees its
      rows, leaves no order and says why. */
  lemma RejectionRestores(rows: map<string, int>, ls: seq<Label>, l: Label, t: nat, sku: string)
    requires Legal(rows, ls) && sku in rows && Undoes(Exec(rows, ls), l, t)
    ensures sku in Exec(rows, ls).rows
    ensures var s := Exec(rows, ls); var n := Apply(s, l);
        && n.rows[sku] == s.rows[sku] + Reserved(s.txns[t], sku) - Drift(rows, ls, t, sku)
        && (s.txns[t].mode.Atomic? ==> n.rows[sku] == s.rows[sku] + Reserved(s.txns[t], sku))
        && n.orders == s.orders && (sku in n.locks ==> n.locks[sku] != t)
        && n.txns[t].phase == Done(Refusal(s.txns[t], l))
  {
    AlwaysOrderly(rows, ls);
    AlwaysRestorable(rows, ls, sku);
    BalanceRollback(Exec(rows, ls), t, Aborted, Drift(rows, ls, t, sku), sku);
    if l.Decide? {
      NoImages(Exec(rows, ls), t);
    }
    if Exec(rows, ls).txns[t].mode.Atomic? {
      AtomicNoDrift(rows, ls, t, sku);
    }
  }

  // ------------------------------------------------------------ never negative

  ghost predicate Covered(x: Txn) {
    && (forall sku :: sku in x.before ==> x.before[sku] >= 0)
    && (x.mode.ReadThenWrite? && x.phase.Reserving? ==> forall i :: 0 <= i < |x.lines| ==> x.lines[i].seen >= x.lines[i].qty)
  }

  ghost predicate NonNegative(s: State) {
    && (forall sku :: sku in s.rows ==> s.rows[sku] >= 0)
    && (forall t :: 0 <= t < |s.txns| ==> Covered(s.txns[t]))
  }

  lemma {:induction false} ShortSeenNone(lines: seq<Line>)
    requires ShortSeen(lines) == []
    ensures forall i :: 0 <= i < |lines| ==> lines[i].seen >= lines[i].qty
  {
    if |lines| > 0 {
      ShortSeenNone(lines[..|lines| - 1]);
    }
  }

  lemma CoveredWrite(s: State, t: nat, line: Line, value: int)
    requires NonNegative(s) && t < |s.txns| && s.txns[t].phase.Reserving? && line.sku in s.rows && value >= 0
    ensures NonNegative(Write(s, t, line, value))
  {
    forall i | 0 <= i < |s.txns| ensures Covered(Write(s, t, line, value).txns[i]) {
      assert Covered(s.txns[i]);
    }
  }

  lemma CoveredUpdate(s: State, l: Label)
    requires NonNegative(s) && Enabled(s, l) && l.Update?
    ensures NonNegative(Apply(s, l))
  {
    var x := s.txns[l.t];
    var line := x.lines[x.phase.next];
    assert Covered(x);
    if line.sku in s.rows && (x.mode.Atomic? ==> Visible(s, l.t, line.sku) >= line.qty) {
      CoveredWrite(s, l.t, line, if x.mode.ReadThenWrite? then line.seen - line.qty else s.rows[line.sku] - line.qty);
    } else {
      CoveredSame(s, Apply(s, l), l.t);
    }
  }

  /** Steps that write no row, or put before-images back. */
  lemma CoveredSame(s: State, n: State, t: nat)
    requires NonNegative(s) && t < |s.txns| && |n.txns| == |s.txns| && n.txns == s.txns[t := n.txns[t]]
    requires n.rows == s.rows || n.rows == Undone(s.rows, s.txns[t].before)
    requires Covered(n.txns[t])
    ensures NonNegative(n)
  {
    assert Covered(s.txns[t]);
  }

  lemma CoveredDecide(s: State, l: Label)
    requires NonNegative(s) && Enabled(s, l) && l.Decide?
    ensures NonNegative(Apply(s, l))
  {
    var n := Apply(s, l);
    assert Covered(s.txns[l.t]);
    if n.txns[l.t].phase.Reserving? && s.txns[l.t].mode.ReadThenWrite? {
      ShortSeenNone(s.txns[l.t].lines);
    }
    CoveredSame(s, n, l.t);
  }

  lemma NonNegativeStep(s: State, l: Label)
    requires NonNegative(s) && Enabled(s, l)
    ensures NonNegative(Apply(s, l))
  {
    match l
    case Begin(_, _, _) =>
      forall t | 0 <= t < |s.txns| ensures Covered(Apply(s, l).txns[t]) {
        assert Covered(s.txns[t]);
      }
    case Update(_) => CoveredUpdate(s, l);
    case Decide(_) => CoveredDecide(s, l);
    case _ =>
      assert Covered(s.txns[l.t]);
      CoveredSame(s, Apply(s, l), l.t);
  }

  /** Availability never goes below zero, in any run, even one that oversells. */
  lemma {:induction false} NeverNegative(rows: map<string, int>, ls: seq<Label>)
    requires Legal(rows, ls) && forall sku :: sku in rows ==> rows[sku] >= 0
    ensures NonNegative(Exec(rows, ls))
  {
    if |ls| > 0 {
      RunStep(rows, ls);
      NeverNegative(rows, ls[..|ls| - 1]);
      NonNegativeStep(Exec(rows, ls[..|ls| - 1]), ls[|ls| - 1]);
    }
  }

  // ------------------------------------------------------------- ATOMIC runs

  /** An ATOMIC checkout never drifts, whatever the others do. */
  lemma {:induction false} AtomicNoDrift(rows: map<string, int>, ls: seq<Label>, t: nat, sku: string)
    requires Legal(rows, ls) && t < |Exec(rows, ls).txns| && Exec(rows, ls).txns[t].mode.Atomic?
    ensures Drift(rows, ls, t, sku) == 0
  {
    if |ls| > 0 {
      var init := ls[..|ls| - 1];
      RunStep(rows, ls);
      if t < |Exec(rows, init).txns| {
        AtomicNoDrift(rows, init, t, sku);
      } else {
        DriftUnborn(rows, init, t, sku);
      }
    }
  }

  ghost predicate AllAtomic(ls: seq<Label>) {
    forall i :: 0 <= i < |ls| && ls[i].Begin? ==> ls[i].mode.Atomic?
  }

  lemma {:induction false} AtomicTxns(rows: map<string, int>, ls: seq<Label>)
    requires Legal(rows, ls) && AllAtomic(ls)
    ensures forall t :: 0 <= t < |Exec(rows, ls).txns| ==> Exec(rows, ls).txns[t].mode.Atomic?
  {
    if |ls| > 0 {
      RunStep(rows, ls);
      AtomicTxns(rows, ls[..|ls| - 1]);
    }
  }

  lemma {:induction false} AtomicNeverStale(rows: map<string, int>, ls: seq<Label>, sku: string)
    requires Legal(rows, ls) && AllAtomic(ls)
    ensures Stale(rows, ls, sku) == 0
  {
    if |ls| > 0 {
      var init, l := ls[..|ls| - 1], ls[|ls| - 1];
      RunStep(rows, ls);
      AtomicTxns(rows, init);
      AtomicNeverStale(rows, init, sku);
      if !l.Begin? {
        AtomicNoDrift(rows, init, l.t, sku);
      }
    }
  }

  /** ATOMIC reservation conserves stock in every interleaving of any number of checkouts,
      with commits, rejections, declines and aborts at any point. */
  lemma AtomicConservesStock(rows: map<string, int>, ls: seq<Label>, sku: string)
    requires Legal(rows, ls) && AllAtomic(ls) && (forall k :: k in rows ==> rows[k] >= 0) && sku in rows
    ensures var s := Exec(rows, ls);
        && sku in s.rows && s.rows[sku] >= 0
        && rows[sku] == s.rows[sku] + OpenReserved(s.txns, sku) + Sold(s.orders, sku)
  {
    StockDrifts(rows, ls, sku);
    AtomicNeverStale(rows, ls, sku);
    NeverNegative(rows, ls);
  }
}
