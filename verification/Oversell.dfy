/** The oversold shop: checkouts that all price before any of them commits. */
module Oversell {
  import opened Sequences
  import opened Inventory
  import opened LostUpdate

  // All carts here hold one line of one SKU; quantities, payment outcomes and the interleaving
  // are free.

  ghost predicate OneLiners(ls: seq<Label>, sku: string) {
    forall i :: 0 <= i < |ls| && ls[i].Begin? ==> OneLine(ls[i].mode, ls[i].items, sku)
  }

  predicate OneLine(mode: Mode, items: seq<Item>, sku: string) {
    mode.ReadThenWrite? && |items| == 1 && items[0].sku == sku && items[0].qty > 0
  }

  /** No pricing follows a commit, and nobody gives up. */
  ghost predicate PricedTogether(ls: seq<Label>) {
    && (forall i :: 0 <= i < |ls| ==> !ls[i].Abort?)
    && (forall i, j :: 0 <= i < j < |ls| && ls[i].Finish? ==> !ls[j].Read?)
  }

  // --------------------------------------------------------------- the carts

  ghost predicate PricedLine(x: Txn, sku: string) {
    |x.items| == 1 && |x.lines| == 1 && x.lines[0].sku == sku && x.lines[0].qty == x.items[0].qty
  }

  /** One such cart on its way. */
  ghost predicate OnItsWay(x: Txn, sku: string) {
    && OneLine(x.mode, x.items, sku) && x.missing == [] && x.short == []
    && match x.phase
       case Pricing(read) => if read == 0 then x.lines == [] else read == 1 && PricedLine(x, sku)
       case Reserving(next) => PricedLine(x, sku) && next <= 1
       case Done(_) => true
  }

  lemma OwnWay(s: State, l: Label, sku: string)
    requires Enabled(s, l) && !l.Begin? && sku in s.rows && OnItsWay(s.txns[l.t], sku)
    ensures OnItsWay(Apply(s, l).txns[l.t], sku)
  {
  }

  lemma {:induction false} AlwaysOnTheirWay(rows: map<string, int>, ls: seq<Label>, t: nat, sku: string)
    requires Legal(rows, ls) && OneLiners(ls, sku) && sku in rows && t < |Exec(rows, ls).txns|
    ensures OnItsWay(Exec(rows, ls).txns[t], sku)
  {
    var init, l := ls[..|ls| - 1], ls[|ls| - 1];
    RunStep(rows, ls);
    if t < |Exec(rows, init).txns| {
      AlwaysOrderly(rows, init);
      AlwaysOnTheirWay(rows, init, t, sku);
      if !l.Begin? && l.t == t {
        OwnWay(Exec(rows, init), l, sku);
      }
    }
  }

  lemma SoleQty(x: Txn, sku: string)
    requires PricedLine(x, sku)
    ensures Qty(x.lines, sku) == x.items[0].qty && FirstSeen(x.lines, sku) == Some(x.lines[0].seen)
  {
    assert x.lines[..0] == [];
  }

  // ------------------------------------------------------------- what they see

  predicate NoCommit(ls: seq<Label>) {
    forall k :: 0 <= k < |ls| ==> !ls[k].Finish?
  }

  lemma {:induction false} UncommittedStock(rows: map<string, int>, ls: seq<Label>, sku: string)
    requires Legal(rows, ls) && sku in rows && NoCommit(ls)
    ensures sku in Exec(rows, ls).rows && CommittedStock(Exec(rows, ls), sku) == rows[sku]
  {
    if |ls| > 0 {
      var init, l := ls[..|ls| - 1], ls[|ls| - 1];
      RunStep(rows, ls);
      assert forall k :: 0 <= k < |init| ==> init[k] == ls[k];
      UncommittedStock(rows, init, sku);
      AlwaysOrderly(rows, init);
      NothingCommitted(Exec(rows, init), l, sku);
    }
  }

  /** Every checkout saw the initial stock. */
  lemma AllSeeInitial(rows: map<string, int>, ls: seq<Label>, t: nat, sku: string)
    requires Legal(rows, ls) && PricedTogether(ls) && sku in rows
    requires t < |Exec(rows, ls).txns| && PricedLine(Exec(rows, ls).txns[t], sku)
    ensures Exec(rows, ls).txns[t].lines[0].seen == rows[sku]
  {
    SoleQty(Exec(rows, ls).txns[t], sku);
    var i := LoadedAt(rows, ls, t, sku);
    assert forall k :: 0 <= k < i ==> ls[..i][k] == ls[k];
    UncommittedStock(rows, ls[..i], sku);
  }

  lemma SaleEnds(rows: map<string, int>, ls: seq<Label>, sku: string)
    requires Legal(rows, ls) && OneLiners(ls, sku) && PricedTogether(ls) && sku in rows
    requires |ls| > 0 && ls[|ls| - 1].Finish?
    ensures var s, t := Exec(rows, ls[..|ls| - 1]), ls[|ls| - 1].t;
        && OnItsWay(s.txns[t], sku) && Exec(rows, ls) == Commit(s, t) && sku in Exec(rows, ls).rows
        && CommittedStock(Exec(rows, ls), sku) == rows[sku] - s.txns[t].items[0].qty
        && Sold(Exec(rows, ls).orders, sku) == Sold(s.orders, sku) + s.txns[t].items[0].qty
  {
    var n := |ls| - 1;
    RunStep(rows, ls);
    AlwaysOnTheirWay(rows, ls[..n], ls[n].t, sku);
    SoleQty(Exec(rows, ls[..n]).txns[ls[n].t], sku);
    BlindSaleWrites(rows, ls, sku);
    AllSeeInitial(rows, ls[..n], ls[n].t, sku);
  }

  // ------------------------------------------------------------------ all sell

  /** What a checkout has taken for good. */
  function Gone(x: Txn): nat {
    if x.phase.Done? && |x.items| == 1 then x.items[0].qty else 0
  }

  ghost predicate Affordable(ls: seq<Label>, stock: int) {
    forall i :: 0 <= i < |ls| && ls[i].Begin? && |ls[i].items| == 1 ==> ls[i].items[0].qty <= stock
  }

  /** Everyone who is over has committed, and sales are what they took. */
  ghost predicate AllSell(s: State, stock: int) {
    && (forall t :: 0 <= t < |s.txns| ==> |s.txns[t].items| == 1 && s.txns[t].items[0].qty <= stock)
    && (forall t :: 0 <= t < |s.txns| && s.txns[t].phase.Done? ==>
          s.txns[t].phase.outcome == if s.txns[t].declines then Declined else Confirmed)
  }

  lemma SellBegin(s: State, l: Label, stock: int)
    requires Enabled(s, l) && l.Begin? && AllSell(s, stock) && |l.items| == 1 && l.items[0].qty <= stock
    ensures AllSell(Apply(s, l), stock) && SumOf(Gone, Apply(s, l).txns) == SumOf(Gone, s.txns)
  {
    SumAppend(Gone, s.txns, Apply(s, l).txns[|s.txns|]);
  }

  lemma SellCommit(s: State, t: nat, stock: int)
    requires AllSell(s, stock) && t < |s.txns| && s.txns[t].phase.Reserving?
    ensures AllSell(Commit(s, t), stock) && SumOf(Gone, Commit(s, t).txns) == SumOf(Gone, s.txns) + s.txns[t].items[0].qty
  {
    SumUpdate(Gone, s.txns, t, Commit(s, t).txns[t]);
  }

  /** The other steps of a checkout that can afford its cart do not end it. */
  lemma StaysOpen(s: State, l: Label, sku: string, stock: int)
    requires Enabled(s, l) && !l.Begin? && !l.Finish? && !l.Abort? && OnItsWay(s.txns[l.t], sku)
    requires l.Decide? ==> s.txns[l.t].lines[0].seen == stock >= s.txns[l.t].items[0].qty
    ensures var n := Apply(s, l);
        && n.orders == s.orders && n.txns == s.txns[l.t := n.txns[l.t]]
        && !n.txns[l.t].phase.Done? && n.txns[l.t].items == s.txns[l.t].items
  {
    if l.Decide? {
      ShortNever(s.txns[l.t].lines);
    }
  }

  lemma SellOpen(s: State, l: Label, sku: string, stock: int)
    requires Enabled(s, l) && !l.Begin? && !l.Finish? && !l.Abort? && OnItsWay(s.txns[l.t], sku) && AllSell(s, stock)
    requires l.Decide? ==> s.txns[l.t].lines[0].seen == stock
    ensures AllSell(Apply(s, l), stock) && Apply(s, l).orders == s.orders
    ensures SumOf(Gone, Apply(s, l).txns) == SumOf(Gone, s.txns)
  {
    StaysOpen(s, l, sku, stock);
    SumUpdate(Gone, s.txns, l.t, Apply(s, l).txns[l.t]);
  }

  lemma ShortNever(lines: seq<Line>)
    requires |lines| == 1 && lines[0].seen >= lines[0].qty
    ensures ShortSeen(lines) == []
  {
    assert lines[..0] == [];
  }

  lemma {:induction false} AlwaysSell(rows: map<string, int>, ls: seq<Label>, sku: string)
    requires Legal(rows, ls) && OneLiners(ls, sku) && PricedTogether(ls) && sku in rows && Affordable(ls, rows[sku])
    ensures AllSell(Exec(rows, ls), rows[sku])
    ensures Sold(Exec(rows, ls).orders, sku) == SumOf(Gone, Exec(rows, ls).txns)
  {
    if |ls| > 0 {
      var init, l := ls[..|ls| - 1], ls[|ls| - 1];
      RunStep(rows, ls);
      AlwaysSell(rows, init, sku);
      var s := Exec(rows, init);
      if l.Begin? {
        SellBegin(s, l, rows[sku]);
      } else if l.Finish? {
        SaleEnds(rows, ls, sku);
        SellCommit(s, l.t, rows[sku]);
      } else {
        AlwaysOnTheirWay(rows, init, l.t, sku);
        if l.Decide? {
          AllSeeInitial(rows, init, l.t, sku);
        }
        SellOpen(s, l, sku, rows[sku]);
      }
    }
  }

  /** Only the last commit shows in the stock. */
  lemma {:induction false} LastCommitShows(rows: map<string, int>, ls: seq<Label>, sku: string) returns (t: nat)
    requires Legal(rows, ls) && OneLiners(ls, sku) && PricedTogether(ls) && sku in rows && !NoCommit(ls)
    ensures t < |Exec(rows, ls).txns| && |Exec(rows, ls).txns[t].items| == 1 && sku in Exec(rows, ls).rows
    ensures CommittedStock(Exec(rows, ls), sku) == rows[sku] - Exec(rows, ls).txns[t].items[0].qty
  {
    var init, l := ls[..|ls| - 1], ls[|ls| - 1];
    RunStep(rows, ls);
    if l.Finish? {
      t := l.t;
      SaleEnds(rows, ls, sku);
    } else {
      assert forall k :: 0 <= k < |init| ==> init[k] == ls[k];
      t := LastCommitShows(rows, init, sku);
      AlwaysOrderly(rows, init);
      NothingCommitted(Exec(rows, init), l, sku);
    }
  }

  lemma {:induction false} CommitsFinish(rows: map<string, int>, ls: seq<Label>)
    requires Legal(rows, ls) && NoCommit(ls)
    requires forall t :: 0 <= t < |Exec(rows, ls).txns| && Exec(rows, ls).txns[t].phase.Done? ==>
        Exec(rows, ls).txns[t].phase.outcome in {Confirmed, Declined}
    ensures forall t :: 0 <= t < |Exec(rows, ls).txns| ==> !Exec(rows, ls).txns[t].phase.Done?
  {
    if |ls| > 0 {
      var init := ls[..|ls| - 1];
      RunStep(rows, ls);
      var s, n := Exec(rows, init), Exec(rows, ls);
      forall t | 0 <= t < |s.txns| && s.txns[t].phase.Done? ensures s.txns[t].phase.outcome in {Confirmed, Declined} {
        assert n.txns[t] == s.txns[t];
      }
      CommitsFinish(rows, init);
    }
  }

  /** Lost updates, in every schedule in which all price before any commits: all that can
      afford their cart sell it, and the stock goes down by the last one's quantity only. */
  lemma OverlappingSell(rows: map<string, int>, ls: seq<Label>, sku: string) returns (last: nat)
    requires Legal(rows, ls) && OneLiners(ls, sku) && PricedTogether(ls) && sku in rows && Affordable(ls, rows[sku])
    requires |Exec(rows, ls).txns| > 0
    requires forall t :: 0 <= t < |Exec(rows, ls).txns| ==> Exec(rows, ls).txns[t].phase.Done?
    ensures var s := Exec(rows, ls);
        && AllSell(s, rows[sku]) && Sold(s.orders, sku) == SumOf(Gone, s.txns)
        && last < |s.txns| && sku in s.rows && s.rows[sku] == rows[sku] - Gone(s.txns[last])
  {
    AlwaysSell(rows, ls, sku);
    AlwaysOrderly(rows, ls);
    if NoCommit(ls) {
      CommitsFinish(rows, ls);
    }
    last := LastCommitShows(rows, ls, sku);
    NothingLocked(Exec(rows, ls), sku);
  }

  lemma {:induction false} SumEqually(txns: seq<Txn>, qty: nat)
    requires forall t :: 0 <= t < |txns| ==> Gone(txns[t]) == qty
    ensures SumOf(Gone, txns) == |txns| * qty
  {
    if |txns| > 0 {
      SumEqually(txns[..|txns| - 1], qty);
      assert |txns| * qty == (|txns| - 1) * qty + qty;
    }
  }

  /** k checkouts of `qty` that all read a stock of at least `qty` before any commits all sell,
      whatever k, and leave the stock only `qty` lower; from the second on the schedule is not
      serialised and stock is lost. */
  lemma OverlappingCheckoutsOversell(rows: map<string, int>, ls: seq<Label>, sku: string, qty: nat)
    requires Legal(rows, ls) && OneLiners(ls, sku) && PricedTogether(ls) && sku in rows && rows[sku] >= qty
    requires forall i :: 0 <= i < |ls| && ls[i].Begin? ==> ls[i].items == [Item(sku, qty)]
    requires |Exec(rows, ls).txns| > 0
    requires forall t :: 0 <= t < |Exec(rows, ls).txns| ==> Exec(rows, ls).txns[t].phase.Done?
    ensures var s := Exec(rows, ls);
        && (forall t :: 0 <= t < |s.txns| ==> s.txns[t].phase == Done(if s.txns[t].declines then Declined else Confirmed))
        && sku in s.rows && s.rows[sku] == rows[sku] - qty
        && Sold(s.orders, sku) == |s.txns| * qty
        && (Serialised(rows, ls, sku) <==> |s.txns| == 1)
  {
    var s := Exec(rows, ls);
    var last := OverlappingSell(rows, ls, sku);
    AllOfQty(rows, ls, sku, qty);
    SumEqually(s.txns, qty);
    SettledConservedExactly(rows, ls, sku);
    AlwaysOnTheirWay(rows, ls, 0, sku);
    OneOrMore(|s.txns|, qty);
  }

  lemma OneOrMore(k: nat, qty: nat)
    requires k > 0 && qty > 0
    ensures k * qty == qty <==> k == 1
  {
    assert k * qty == (k - 1) * qty + qty;
    if k > 1 {
      assert (k - 1) * qty == (k - 2) * qty + qty;
    }
  }

  lemma {:induction false} AllOfQty(rows: map<string, int>, ls: seq<Label>, sku: string, qty: nat)
    requires Legal(rows, ls) && forall i :: 0 <= i < |ls| && ls[i].Begin? ==> ls[i].items == [Item(sku, qty)]
    ensures forall t :: 0 <= t < |Exec(rows, ls).txns| ==> Exec(rows, ls).txns[t].items == [Item(sku, qty)]
  {
    if |ls| > 0 {
      RunStep(rows, ls);
      AllOfQty(rows, ls[..|ls| - 1], sku, qty);
    }
  }

  // ------------------------------------------------------------- such a schedule

  lemma RunExtend(rows: map<string, int>, ls: seq<Label>, l: Label)
    requires Legal(rows, ls) && Enabled(Exec(rows, ls), l)
    ensures Legal(rows, ls + [l]) && Exec(rows, ls + [l]) == Apply(Exec(rows, ls), l)
  {
    assert (ls + [l])[..|ls|] == ls;
  }

  /** A checkout of `qty` before pricing (0), priced (1), reserving (2) and sold (3). */
  function TxnAt(sku: string, qty: nat, stock: int, stage: nat): Txn {
    Txn(ReadThenWrite, [Item(sku, qty)], false,
        if stage == 0 then Pricing(0) else if stage == 1 then Pricing(1) else if stage == 2 then Reserving(0) else Done(Confirmed),
        if stage == 0 then [] else [Line(sku, qty, stock)], [],
        if stage < 3 then [] else [Line(sku, qty, stock)], [], map[])
  }

  /** The first `n` checkouts are one stage ahead. */
  function TxnsAt(sku: string, qs: seq<nat>, stock: int, stage: nat, n: nat): seq<Txn> {
    seq(|qs|, i requires 0 <= i < |qs| => TxnAt(sku, qs[i], stock, if i < n then stage + 1 else stage))
  }

  function Orders(sku: string, qs: seq<nat>, stock: int): seq<Order> {
    seq(|qs|, i requires 0 <= i < |qs| => Order([Line(sku, qs[i], stock)], true))
  }

  function Begins(sku: string, qs: seq<nat>): seq<Label> {
    seq(|qs|, i requires 0 <= i < |qs| => Begin(ReadThenWrite, [Item(sku, qs[i])], false))
  }

  function Pricings(n: nat): seq<Label> {
    seq(n, t requires 0 <= t => Read(t))
  }

  function Decides(n: nat): seq<Label> {
    seq(n, t requires 0 <= t => Decide(t))
  }

  function Sales(n: nat): seq<Label> {
    if n == 0 then [] else Sales(n - 1) + [Update(n - 1), Finish(n - 1)]
  }

  function Overlap(sku: string, qs: seq<nat>): seq<Label> {
    Begins(sku, qs) + Pricings(|qs|) + Decides(|qs|) + Sales(|qs|)
  }

  lemma {:induction false} AllBegin(rows: map<string, int>, sku: string, qs: seq<nat>, stock: int)
    ensures Legal(rows, Begins(sku, qs))
    ensures Exec(rows, Begins(sku, qs)) == State(rows, map[], TxnsAt(sku, qs, stock, 0, 0), [])
  {
    if |qs| == 0 {
      assert Begins(sku, qs) == [] && TxnsAt(sku, qs, stock, 0, 0) == [];
    } else {
      var n := |qs| - 1;
      AllBegin(rows, sku, qs[..n], stock);
      var l := Begin(ReadThenWrite, [Item(sku, qs[n])], false);
      assert Begins(sku, qs) == Begins(sku, qs[..n]) + [l];
      RunExtend(rows, Begins(sku, qs[..n]), l);
      assert TxnsAt(sku, qs, stock, 0, 0) == TxnsAt(sku, qs[..n], stock, 0, 0) + [TxnAt(sku, qs[n], stock, 0)];
    }
  }

  lemma {:induction false} AllRead(rows: map<string, int>, ls: seq<Label>, sku: string, qs: seq<nat>, n: nat)
    requires Legal(rows, ls) && sku in rows && n <= |qs|
    requires Exec(rows, ls) == State(rows, map[], TxnsAt(sku, qs, rows[sku], 0, 0), [])
    ensures Legal(rows, ls + Pricings(n))
    ensures Exec(rows, ls + Pricings(n)) == State(rows, map[], TxnsAt(sku, qs, rows[sku], 0, n), [])
  {
    if n == 0 {
      assert ls + Pricings(0) == ls;
    } else {
      AllRead(rows, ls, sku, qs, n - 1);
      assert ls + Pricings(n) == ls + Pricings(n - 1) + [Read(n - 1)];
      assert FirstSeen([], sku) == None;
      RunExtend(rows, ls + Pricings(n - 1), Read(n - 1));
      var line := Line(sku, qs[n - 1], rows[sku]);
      assert Exec(rows, ls + Pricings(n)).txns[n - 1].lines == [] + [line] == [line];
      assert TxnsAt(sku, qs, rows[sku], 0, n) == TxnsAt(sku, qs, rows[sku], 0, n - 1)[n - 1 := TxnAt(sku, qs[n - 1], rows[sku], 1)];
    }
  }

  lemma {:induction false} AllDecide(rows: map<string, int>, ls: seq<Label>, sku: string, qs: seq<nat>, n: nat)
    requires Legal(rows, ls) && sku in rows && n <= |qs| && forall i :: 0 <= i < |qs| ==> qs[i] <= rows[sku]
    requires Exec(rows, ls) == State(rows, map[], TxnsAt(sku, qs, rows[sku], 1, 0), [])
    ensures Legal(rows, ls + Decides(n))
    ensures Exec(rows, ls + Decides(n)) == State(rows, map[], TxnsAt(sku, qs, rows[sku], 1, n), [])
  {
    if n == 0 {
      assert ls + Decides(0) == ls;
    } else {
      AllDecide(rows, ls, sku, qs, n - 1);
      assert ls + Decides(n) == ls + Decides(n - 1) + [Decide(n - 1)];
      ShortNever([Line(sku, qs[n - 1], rows[sku])]);
      RunExtend(rows, ls + Decides(n - 1), Decide(n - 1));
      assert TxnsAt(sku, qs, rows[sku], 1, n) == TxnsAt(sku, qs, rows[sku], 1, n - 1)[n - 1 := TxnAt(sku, qs[n - 1], rows[sku], 2)];
    }
  }

  /** The state after `n` sales. */
  function SoldTo(rows: map<string, int>, sku: string, qs: seq<nat>, n: nat): State
    requires sku in rows && n <= |qs|
  {
    State(if n == 0 then rows else rows[sku := rows[sku] - qs[n - 1]], map[],
          TxnsAt(sku, qs, rows[sku], 2, n), Orders(sku, qs[..n], rows[sku]))
  }

  /** One more writes over the row what it saw less what it took, and commits. */
  lemma OneSale(rows: map<string, int>, ls: seq<Label>, sku: string, qs: seq<nat>, n: nat)
    requires Legal(rows, ls) && sku in rows && n < |qs| && Exec(rows, ls) == SoldTo(rows, sku, qs, n)
    ensures Legal(rows, ls + [Update(n), Finish(n)])
    ensures Exec(rows, ls + [Update(n), Finish(n)]) == SoldTo(rows, sku, qs, n + 1)
  {
    var s := Exec(rows, ls);
    var line := Line(sku, qs[n], rows[sku]);
    RunExtend(rows, ls, Update(n));
    var m := Exec(rows, ls + [Update(n)]);
    assert m == Write(s, n, line, rows[sku] - qs[n]);
    RunExtend(rows, ls + [Update(n)], Finish(n));
    assert ls + [Update(n)] + [Finish(n)] == ls + [Update(n), Finish(n)];
    var e := Commit(m, n);
    assert m.rows == rows[sku := rows[sku] - qs[n]];
    assert m.locks == map[sku := n] && e.locks == map[];
    assert e.txns[n].taken == [] + [line] == [line];
    assert e.txns == TxnsAt(sku, qs, rows[sku], 2, n + 1);
    assert e.orders == Orders(sku, qs[..n + 1], rows[sku]);
  }

  lemma {:induction false} AllSale(rows: map<string, int>, ls: seq<Label>, sku: string, qs: seq<nat>, n: nat)
    requires Legal(rows, ls) && sku in rows && n <= |qs| && Exec(rows, ls) == SoldTo(rows, sku, qs, 0)
    ensures Legal(rows, ls + Sales(n)) && Exec(rows, ls + Sales(n)) == SoldTo(rows, sku, qs, n)
  {
    if n == 0 {
      assert ls + Sales(0) == ls;
    } else {
      AllSale(rows, ls, sku, qs, n - 1);
      OneSale(rows, ls + Sales(n - 1), sku, qs, n - 1);
      assert ls + Sales(n) == ls + Sales(n - 1) + [Update(n - 1), Finish(n - 1)];
    }
  }

  lemma {:induction false} SalesOnly(n: nat, i: nat)
    requires i < |Sales(n)|
    ensures Sales(n)[i].Update? || Sales(n)[i].Finish?
  {
    if i < |Sales(n - 1)| {
      SalesOnly(n - 1, i);
    }
  }

  lemma OverlapShape(sku: string, qs: seq<nat>)
    requires forall i :: 0 <= i < |qs| ==> qs[i] > 0
    ensures OneLiners(Overlap(sku, qs), sku) && PricedTogether(Overlap(sku, qs))
    ensures forall i :: 0 <= i < |Overlap(sku, qs)| && Overlap(sku, qs)[i].Begin? ==>
        exists k :: 0 <= k < |qs| && Overlap(sku, qs)[i].items == [Item(sku, qs[k])]
  {
    var early, ls := Begins(sku, qs) + Pricings(|qs|) + Decides(|qs|), Overlap(sku, qs);
    forall i | 0 <= i < |ls|
      ensures if i < |early| then ls[i] == early[i] && (ls[i].Begin? || ls[i].Read? || ls[i].Decide?) else ls[i].Update? || ls[i].Finish?
    {
      if i >= |early| {
        SalesOnly(|qs|, i - |early|);
      }
    }
  }

  /** Every list of affordable quantities can be oversold: there is a schedule in which all
      such checkouts price before any commits, and it ends with all of them confirmed. */
  lemma OverlapHappens(rows: map<string, int>, sku: string, qs: seq<nat>)
    requires sku in rows && forall i :: 0 <= i < |qs| ==> 0 < qs[i] <= rows[sku]
    ensures Legal(rows, Overlap(sku, qs)) && OneLiners(Overlap(sku, qs), sku) && PricedTogether(Overlap(sku, qs))
    ensures Exec(rows, Overlap(sku, qs)) == SoldTo(rows, sku, qs, |qs|)
  {
    var k, stock := |qs|, rows[sku];
    var b := Begins(sku, qs);
    OverlapShape(sku, qs);
    AllBegin(rows, sku, qs, stock);
    AllRead(rows, b, sku, qs, k);
    assert TxnsAt(sku, qs, stock, 0, k) == TxnsAt(sku, qs, stock, 1, 0);
    AllDecide(rows, b + Pricings(k), sku, qs, k);
    assert TxnsAt(sku, qs, stock, 1, k) == TxnsAt(sku, qs, stock, 2, 0);
    AllSale(rows, b + Pricings(k) + Decides(k), sku, qs, k);
  }

  /** The lost update, for every number of checkouts, every quantity and every stock that
      covers it: a schedule after which all k have confirmed and the stock is down by one
      quantity; with two or more, stock has been sold that was not there to sell. */
  lemma OversellHappens(rows: map<string, int>, sku: string, qty: nat, k: nat) returns (ls: seq<Label>)
    requires sku in rows && 0 < qty <= rows[sku] && k > 0
    ensures Legal(rows, ls) && OneLiners(ls, sku) && PricedTogether(ls)
    ensures var s := Exec(rows, ls);
        && |s.txns| == k && (forall t :: 0 <= t < k ==> s.txns[t].phase == Done(Confirmed))
        && sku in s.rows && s.rows[sku] == rows[sku] - qty && Sold(s.orders, sku) == k * qty
        && (Serialised(rows, ls, sku) <==> k == 1)
  {
    var qs := seq(k, i => qty);
    ls := Overlap(sku, qs);
    OverlapHappens(rows, sku, qs);
    OverlapShape(sku, qs);
    OverlappingCheckoutsOversell(rows, ls, sku, qty);
  }
}
