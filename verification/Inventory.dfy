/** examples/demo_shop/store.py as concurrent transactions: committed reads, row locks, absolute
    and conditional updates, and before-images that a rollback puts back. */
module Inventory {
  import opened Sequences

  // Any number of checkouts interleave statement by statement, with row locks held to the end,
  // before-images for rollback, and reads that see committed values:
  //
  //   Pricing --Read*--> --Decide--> Reserving --Update*--> --Finish--> Done

  datatype Mode = Atomic | ReadThenWrite

  datatype Item = Item(sku: string, qty: nat)

  /** A priced line and the availability it saw. */
  datatype Line = Line(sku: string, qty: nat, seen: int)

  datatype Outcome =
    | Confirmed
    | Declined                         // 402: the order stays pending, and commits
    | OutOfStock(short: seq<string>)   // 409, rolled back
    | UnknownSku(missing: seq<string>) // 409, nothing written
    | Unauthorized                     // 401
    | Aborted                          // the database or the client gave up

  datatype Phase = Pricing(read: nat) | Reserving(next: nat) | Done(outcome: Outcome)

  datatype Txn = Txn(
    mode: Mode, items: seq<Item>, declines: bool, phase: Phase,
    lines: seq<Line>, missing: seq<string>,
    taken: seq<Line>,           // lines whose UPDATE matched a row
    short: seq<string>,         // SKUs whose UPDATE matched none
    before: map<string, int>)   // before-images of the rows it holds locked

  datatype Order = Order(lines: seq<Line>, confirmed: bool)

  datatype State = State(rows: map<string, int>, locks: map<string, nat>, txns: seq<Txn>, orders: seq<Order>)

  datatype Label =
    | Begin(mode: Mode, items: seq<Item>, declines: bool)
    | Read(t: nat)
    | Decide(t: nat)
    | Update(t: nat)
    | Finish(t: nat)
    | Abort(t: nat)

  function Opening(rows: map<string, int>): State { State(rows, map[], [], []) }

  /** Someone else holds the row. */
  predicate Held(s: State, t: nat, sku: string) {
    sku in s.locks && s.locks[sku] != t && s.locks[sku] < |s.txns|
  }

  /** What a statement of `t` sees: its own writes, else the committed value. */
  function Visible(s: State, t: nat, sku: string): int
    requires sku in s.rows
  {
    if Held(s, t, sku) && sku in s.txns[s.locks[sku]].before then s.txns[s.locks[sku]].before[sku] else s.rows[sku]
  }

  /** An UPDATE whose row qualifies waits for the row lock. */
  predicate Blocked(s: State, t: nat, mode: Mode, line: Line) {
    && line.sku in s.rows && Held(s, t, line.sku)
    && (mode.Atomic? ==> Visible(s, t, line.sku) >= line.qty)
  }

  predicate Enabled(s: State, l: Label) {
    match l
    case Begin(_, _, _) => true
    case Read(t) => t < |s.txns| && s.txns[t].phase.Pricing? && s.txns[t].phase.read < |s.txns[t].items|
    case Decide(t) => t < |s.txns| && s.txns[t].phase.Pricing? && s.txns[t].phase.read == |s.txns[t].items|
    case Update(t) =>
      && t < |s.txns| && s.txns[t].phase.Reserving? && s.txns[t].phase.next < |s.txns[t].lines|
      && !Blocked(s, t, s.txns[t].mode, s.txns[t].lines[s.txns[t].phase.next])
    case Finish(t) => t < |s.txns| && s.txns[t].phase.Reserving? && s.txns[t].phase.next == |s.txns[t].lines|
    case Abort(t) => t < |s.txns| && !s.txns[t].phase.Done?
  }

  function ShortSeen(lines: seq<Line>): seq<string> {
    if |lines| == 0 then []
    else
      var last := lines[|lines| - 1];
      var rest := ShortSeen(lines[..|lines| - 1]);
      if last.seen < last.qty then rest + [last.sku] else rest
  }

  /** What the session already holds for a SKU: its identity map keeps the first value loaded. */
  function FirstSeen(lines: seq<Line>, sku: string): Option<int> {
    if |lines| == 0 then None
    else match FirstSeen(lines[..|lines| - 1], sku)
      case Some(seen) => Some(seen)
      case None => if lines[|lines| - 1].sku == sku then Some(lines[|lines| - 1].seen) else None
  }

  /** The availability that pricing a line of `t` sees. */
  function Loaded(s: State, t: nat, sku: string): int
    requires t < |s.txns| && sku in s.rows
  {
    match FirstSeen(s.txns[t].lines, sku)
    case Some(seen) => seen
    case None => Visible(s, t, sku)
  }

  function Set(s: State, t: nat, x: Txn): State
    requires t < |s.txns|
  {
    s.(txns := s.txns[t := x])
  }

  function Release(locks: map<string, nat>, t: nat): map<string, nat> {
    map k | k in locks && locks[k] != t :: locks[k]
  }

  function Undone(rows: map<string, int>, before: map<string, int>): map<string, int> {
    map k | k in rows :: if k in before then before[k] else rows[k]
  }

  function Ended(x: Txn, outcome: Outcome): Txn {
    x.(phase := Done(outcome), before := map[])
  }

  function Rollback(s: State, t: nat, outcome: Outcome): State
    requires t < |s.txns|
  {
    Set(s.(rows := Undone(s.rows, s.txns[t].before), locks := Release(s.locks, t)), t, Ended(s.txns[t], outcome))
  }

  function Commit(s: State, t: nat): State
    requires t < |s.txns|
  {
    var x := s.txns[t];
    Set(s.(locks := Release(s.locks, t), orders := s.orders + [Order(x.lines, !x.declines)]),
        t, Ended(x, if x.declines then Declined else Confirmed))
  }

  /** A matching UPDATE: lock the row, keep its before-image, write. */
  function Write(s: State, t: nat, line: Line, value: int): State
    requires t < |s.txns| && s.txns[t].phase.Reserving? && line.sku in s.rows
  {
    var x := s.txns[t];
    Set(s.(rows := s.rows[line.sku := value], locks := s.locks[line.sku := t]), t,
        x.(phase := Reserving(x.phase.next + 1), taken := x.taken + [line],
           before := if line.sku in x.before then x.before else x.before[line.sku := s.rows[line.sku]]))
  }

  function Apply(s: State, l: Label): State
    requires Enabled(s, l)
  {
    match l
    case Begin(mode, items, declines) =>
      s.(txns := s.txns + [Txn(mode, items, declines, Pricing(0), [], [], [], [], map[])])
    case Read(t) =>
      var x := s.txns[t];
      var item := x.items[x.phase.read];
      var next := x.(phase := Pricing(x.phase.read + 1));
      if item.sku in s.rows
      then Set(s, t, next.(lines := x.lines + [Line(item.sku, item.qty, Loaded(s, t, item.sku))]))
      else Set(s, t, next.(missing := x.missing + [item.sku]))
    case Decide(t) =>
      var x := s.txns[t];
      if x.missing != [] then Set(s, t, Ended(x, UnknownSku(x.missing)))
      else if x.mode.ReadThenWrite? && ShortSeen(x.lines) != [] then Rollback(s, t, OutOfStock(ShortSeen(x.lines)))
      else Set(s, t, x.(phase := Reserving(0)))
    case Update(t) =>
      var x := s.txns[t];
      var line := x.lines[x.phase.next];
      var skip := x.(phase := Reserving(x.phase.next + 1));
      if x.mode.ReadThenWrite? then
        (if line.sku in s.rows then Write(s, t, line, line.seen - line.qty) else Set(s, t, skip))
      else
        (if line.sku in s.rows && Visible(s, t, line.sku) >= line.qty
         then Write(s, t, line, s.rows[line.sku] - line.qty)
         else Set(s, t, skip.(short := x.short + [line.sku])))
    case Finish(t) =>
      if s.txns[t].short != [] then Rollback(s, t, OutOfStock(s.txns[t].short)) else Commit(s, t)
    case Abort(t) => Rollback(s, t, Aborted)
  }

  ghost function Run(rows: map<string, int>, ls: seq<Label>): Option<State> {
    if |ls| == 0 then Some(Opening(rows))
    else match Run(rows, ls[..|ls| - 1])
      case None => None
      case Some(s) => if Enabled(s, ls[|ls| - 1]) then Some(Apply(s, ls[|ls| - 1])) else None
  }

  ghost predicate Legal(rows: map<string, int>, ls: seq<Label>) { Run(rows, ls).Some? }

  ghost function Exec(rows: map<string, int>, ls: seq<Label>): State
    requires Legal(rows, ls)
  {
    Run(rows, ls).value
  }

  lemma RunStep(rows: map<string, int>, ls: seq<Label>)
    requires Legal(rows, ls) && |ls| > 0
    ensures Legal(rows, ls[..|ls| - 1]) && Enabled(Exec(rows, ls[..|ls| - 1]), ls[|ls| - 1])
    ensures Exec(rows, ls) == Apply(Exec(rows, ls[..|ls| - 1]), ls[|ls| - 1])
  {
  }

  // --------------------------------------------------------------- quantities

  function Qty(lines: seq<Line>, sku: string): nat {
    if |lines| == 0 then 0
    else
      var last := lines[|lines| - 1];
      Qty(lines[..|lines| - 1], sku) + if last.sku == sku then last.qty else 0
  }

  /** What an open transaction holds reserved. */
  function Reserved(x: Txn, sku: string): nat {
    if x.phase.Reserving? then Qty(x.taken, sku) else 0
  }

  function Hold(sku: string): Txn -> nat {
    (x: Txn) => Reserved(x, sku)
  }

  function OpenReserved(txns: seq<Txn>, sku: string): nat {
    SumOf(Hold(sku), txns)
  }

  /** What committed orders hold, confirmed or pending. */
  function Sold(orders: seq<Order>, sku: string): nat {
    SumOf((o: Order) => Qty(o.lines, sku), orders)
  }

  lemma QtyAppend(lines: seq<Line>, line: Line, sku: string)
    ensures Qty(lines + [line], sku) == Qty(lines, sku) + if line.sku == sku then line.qty else 0
  {
    assert (lines + [line])[..|lines|] == lines;
  }

  lemma SoldAppend(orders: seq<Order>, o: Order, sku: string)
    ensures Sold(orders + [o], sku) == Sold(orders, sku) + Qty(o.lines, sku)
  {
    SumAppend((o: Order) => Qty(o.lines, sku), orders, o);
  }

  lemma ReservedUpdate(txns: seq<Txn>, t: nat, x: Txn, sku: string)
    requires t < |txns|
    ensures OpenReserved(txns[t := x], sku) == OpenReserved(txns, sku) - Reserved(txns[t], sku) + Reserved(x, sku)
  {
    SumUpdate(Hold(sku), txns, t, x);
  }

  lemma ReservedAppend(txns: seq<Txn>, x: Txn, sku: string)
    ensures OpenReserved(txns + [x], sku) == OpenReserved(txns, sku) + Reserved(x, sku)
  {
    SumAppend(Hold(sku), txns, x);
  }

  // ------------------------------------------------------------------ locking

  /** Row locks and before-images agree: a lock names the one transaction that can undo the
      row, and only a reserving transaction holds any. */
  ghost predicate Locking(s: State) {
    && (forall sku :: sku in s.locks ==> s.locks[sku] < |s.txns| && sku in s.txns[s.locks[sku]].before)
    && (forall t, sku :: 0 <= t < |s.txns| && sku in s.txns[t].before ==>
          sku in s.rows && sku in s.locks && s.locks[sku] == t && s.txns[t].phase.Reserving?)
  }

  lemma LockingWrite(s: State, t: nat, line: Line, value: int)
    requires Locking(s) && t < |s.txns| && s.txns[t].phase.Reserving?
    requires line.sku in s.rows && !Held(s, t, line.sku)
    ensures Locking(Write(s, t, line, value))
  {
    var n := Write(s, t, line, value);
    forall k | k in n.locks ensures n.locks[k] < |n.txns| && k in n.txns[n.locks[k]].before {
      assert k != line.sku ==> k in s.locks && k in s.txns[s.locks[k]].before;
    }
    forall i, k | 0 <= i < |n.txns| && k in n.txns[i].before
      ensures k in n.rows && k in n.locks && n.locks[k] == i && n.txns[i].phase.Reserving?
    {
      assert i != t || k != line.sku ==> k in s.txns[i].before && s.locks[k] == i;
    }
  }

  /** The holder of row locks lets them all go. */
  lemma LockingEnd(s: State, n: State, t: nat, x: Txn)
    requires Locking(s) && t < |s.txns| && x.before == map[]
    requires n.txns == s.txns[t := x] && n.locks == Release(s.locks, t) && n.rows.Keys == s.rows.Keys
    ensures Locking(n)
  {
  }

  lemma LockingSame(s: State, n: State)
    requires Locking(s) && n.rows == s.rows && n.locks == s.locks && |n.txns| >= |s.txns|
    requires forall i :: 0 <= i < |n.txns| ==>
        if i < |s.txns| then n.txns[i].before == s.txns[i].before && (s.txns[i].phase.Reserving? ==> n.txns[i].phase.Reserving?)
        else n.txns[i].before == map[]
    ensures Locking(n)
  {
  }

  lemma NoImages(s: State, t: nat)
    requires Locking(s) && t < |s.txns| && !s.txns[t].phase.Reserving?
    ensures s.txns[t].before == map[]
  {
  }

  lemma LockingUpdate(s: State, l: Label)
    requires Locking(s) && Enabled(s, l) && l.Update?
    ensures Locking(Apply(s, l))
  {
    var x := s.txns[l.t];
    var line := x.lines[x.phase.next];
    if line.sku in s.rows && (x.mode.Atomic? ==> Visible(s, l.t, line.sku) >= line.qty) {
      LockingWrite(s, l.t, line, if x.mode.ReadThenWrite? then line.seen - line.qty else s.rows[line.sku] - line.qty);
    } else {
      LockingSame(s, Apply(s, l));
    }
  }

  lemma LockingDecide(s: State, l: Label)
    requires Locking(s) && Enabled(s, l) && l.Decide?
    ensures Locking(Apply(s, l))
  {
    NoImages(s, l.t);
    if s.txns[l.t].missing != [] || Apply(s, l).txns[l.t].phase.Reserving? {
      LockingSame(s, Apply(s, l));
    } else {
      LockingEnd(s, Apply(s, l), l.t, Apply(s, l).txns[l.t]);
    }
  }

  /** Every step, in either mode, keeps locks and before-images in agreement. */
  lemma LockingStep(s: State, l: Label)
    requires Locking(s) && Enabled(s, l)
    ensures Locking(Apply(s, l))
  {
    match l
    case Begin(_, _, _) => LockingSame(s, Apply(s, l));
    case Read(_) => LockingSame(s, Apply(s, l));
    case Decide(_) => LockingDecide(s, l);
    case Update(_) => LockingUpdate(s, l);
    case _ => LockingEnd(s, Apply(s, l), l.t, Apply(s, l).txns[l.t]);
  }

  // ----------------------------------------------------------------- progress

  /** How far a transaction has got: its lines are stocked SKUs, and unless it came up short
      it has taken exactly the lines it has updated. */
  ghost predicate Progress(x: Txn, stocked: set<string>) {
    && (forall i :: 0 <= i < |x.lines| ==> x.lines[i].sku in stocked)
    && (x.phase.Pricing? ==> x.taken == [] && x.short == [])
    && (x.phase.Reserving? ==> x.phase.next <= |x.lines| && (x.short == [] ==> x.taken == x.lines[..x.phase.next]))
  }

  ghost predicate ProgressAll(s: State, stocked: set<string>) {
    s.rows.Keys == stocked && forall t :: 0 <= t < |s.txns| ==> Progress(s.txns[t], stocked)
  }

  lemma ProgressUpdate(s: State, l: Label)
    requires Enabled(s, l) && l.Update? && Progress(s.txns[l.t], s.rows.Keys)
    ensures Progress(Apply(s, l).txns[l.t], s.rows.Keys)
  {
  }

  lemma ProgressOwn(s: State, l: Label, t: nat)
    requires Enabled(s, l) && t < |s.txns| && Progress(s.txns[t], s.rows.Keys)
    ensures Progress(Apply(s, l).txns[t], s.rows.Keys)
  {
    if l == Update(t) {
      ProgressUpdate(s, l);
    }
  }

  lemma ProgressStep(s: State, l: Label, stocked: set<string>)
    requires ProgressAll(s, stocked) && Enabled(s, l)
    ensures ProgressAll(Apply(s, l), stocked)
  {
    forall t | 0 <= t < |s.txns| ensures Progress(Apply(s, l).txns[t], stocked) {
      ProgressOwn(s, l, t);
    }
  }

  /** Over every run, in any mix of modes, locks agree with before-images and every
      transaction has taken exactly what it has updated. */
  lemma {:induction false} AlwaysOrderly(rows: map<string, int>, ls: seq<Label>)
    requires Legal(rows, ls)
    ensures Locking(Exec(rows, ls)) && ProgressAll(Exec(rows, ls), rows.Keys)
  {
    if |ls| > 0 {
      RunStep(rows, ls);
      AlwaysOrderly(rows, ls[..|ls| - 1]);
      LockingStep(Exec(rows, ls[..|ls| - 1]), ls[|ls| - 1]);
      ProgressStep(Exec(rows, ls[..|ls| - 1]), ls[|ls| - 1], rows.Keys);
    }
  }
}
