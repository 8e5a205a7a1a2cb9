module LostUpdate {
  // When reservation loses stock: when a checkout commits after another's sale that it never saw.

  import opened Sequences
  import opened Inventory
  import opened Conservation

  // Any carts, in any mix of modes, with other SKUs, rejections, declines and aborts; only a
  // READ_THEN_WRITE cart may name the SKU in question once at most, for a positive quantity.

  ghost predicate NamedOnce(ls: seq<Label>, sku: string) {
    forall i :: 0 <= i < |ls| && ls[i].Begin? && ls[i].mode.ReadThenWrite? ==> Once(ls[i].items, sku)
  }

  predicate Once(items: seq<Item>, sku: string) {
    forall p :: 0 <= p < |items| && items[p].sku == sku ==>
      items[p].qty > 0 && forall q :: p < q < |items| ==> items[q].sku != sku
  }

  /** What is in stock as far as commits go: the before-image while the row is locked. */
  function CommittedStock(s: State, sku: string): int
    requires sku in s.rows
  {
    if sku in s.locks && s.locks[sku] < |s.txns| && sku in s.txns[s.locks[sku]].before
    then s.txns[s.locks[sku]].before[sku]
    else s.rows[sku]
  }

  /** The step prices the SKU for `t`: it loads what is available. */
  predicate Loads(s: State, l: Label, t: nat, sku: string) {
    && l == Read(t) && Enabled(s, l) && sku in s.rows
    && s.txns[t].items[s.txns[t].phase.read].sku == sku && FirstSeen(s.txns[t].lines, sku).None?
  }

  /** The step commits a checkout that takes some of the SKU. */
  predicate Sells(s: State, l: Label, sku: string) {
    Enabled(s, l) && l.Finish? && s.txns[l.t].short == [] && Qty(s.txns[l.t].lines, sku) > 0
  }

  ghost predicate LoadAt(rows: map<string, int>, ls: seq<Label>, i: nat, t: nat, sku: string) {
    i < |ls| && Legal(rows, ls[..i]) && Loads(Exec(rows, ls[..i]), ls[i], t, sku)
  }

  ghost predicate SaleAt(rows: map<string, int>, ls: seq<Label>, k: nat, sku: string) {
    k < |ls| && Legal(rows, ls[..k]) && Sells(Exec(rows, ls[..k]), ls[k], sku)
  }

  /** A READ_THEN_WRITE sale. */
  ghost predicate BlindSaleAt(rows: map<string, int>, ls: seq<Label>, j: nat, sku: string) {
    SaleAt(rows, ls, j, sku) && Exec(rows, ls[..j]).txns[ls[j].t].mode.ReadThenWrite?
  }

  ghost predicate NoSale(rows: map<string, int>, ls: seq<Label>, i: nat, j: nat, sku: string) {
    forall k :: i <= k < j ==> !SaleAt(rows, ls, k, sku)
  }

  /** Each READ_THEN_WRITE sale follows its own pricing with no other sale in between. */
  ghost predicate Serialised(rows: map<string, int>, ls: seq<Label>, sku: string) {
    forall i, j :: 0 <= i < j < |ls| && BlindSaleAt(rows, ls, j, sku) && LoadAt(rows, ls, i, ls[j].t, sku) ==>
      NoSale(rows, ls, i, j, sku)
  }

  // ------------------------------------------------------------- lines of a SKU

  lemma FirstSeenAppend(lines: seq<Line>, line: Line, sku: string)
    ensures FirstSeen(lines + [line], sku)
         == if FirstSeen(lines, sku).Some? then FirstSeen(lines, sku) else if line.sku == sku then Some(line.seen) else None
  {
    assert (lines + [line])[..|lines|] == lines;
  }

  predicate SoleLine(lines: seq<Line>, sku: string) {
    forall p :: 0 <= p < |lines| && lines[p].sku == sku ==>
      lines[p].qty > 0 && forall q :: p < q < |lines| ==> lines[q].sku != sku
  }

  lemma {:induction false} FirstSeenNone(lines: seq<Line>, sku: string)
    ensures FirstSeen(lines, sku).None? <==> forall p :: 0 <= p < |lines| ==> lines[p].sku != sku
  {
    if |lines| > 0 {
      FirstSeenNone(lines[..|lines| - 1], sku);
    }
  }

  lemma {:induction false} FirstSeenSole(lines: seq<Line>, sku: string, p: nat)
    requires SoleLine(lines, sku) && p < |lines| && lines[p].sku == sku
    ensures FirstSeen(lines, sku) == Some(lines[p].seen)
  {
    var init := lines[..|lines| - 1];
    if p < |init| {
      FirstSeenSole(init, sku, p);
    } else {
      FirstSeenNone(init, sku);
    }
  }

  lemma {:induction false} QtyNamed(lines: seq<Line>, sku: string) returns (p: nat)
    requires Qty(lines, sku) > 0
    ensures p < |lines| && lines[p].sku == sku
  {
    if lines[|lines| - 1].sku == sku {
      p := |lines| - 1;
    } else {
      p := QtyNamed(lines[..|lines| - 1], sku);
    }
  }

  lemma {:induction false} QtySome(lines: seq<Line>, sku: string, p: nat)
    requires p < |lines| && lines[p].sku == sku && lines[p].qty > 0
    ensures Qty(lines, sku) > 0
  {
    if p < |lines| - 1 {
      QtySome(lines[..|lines| - 1], sku, p);
    }
  }

  // ------------------------------------------------------- READ_THEN_WRITE carts

  /** Such a cart has priced the SKU once at most, and holds its row once it has written it. */
  ghost predicate LineOnce(x: Txn, sku: string) {
    x.mode.ReadThenWrite? ==>
      && Once(x.items, sku) && SoleLine(x.lines, sku)
      && (x.phase.Pricing? && FirstSeen(x.lines, sku).Some? ==>
            forall q :: x.phase.read <= q < |x.items| ==> x.items[q].sku != sku)
      && (x.phase.Reserving? ==>
            (sku in x.before <==> exists p :: 0 <= p < x.phase.next && p < |x.lines| && x.lines[p].sku == sku))
  }

  lemma LineOnceRead(s: State, l: Label, sku: string)
    requires Enabled(s, l) && l.Read? && LineOnce(s.txns[l.t], sku)
    ensures LineOnce(Apply(s, l).txns[l.t], sku)
  {
    var x, y := s.txns[l.t], Apply(s, l).txns[l.t];
    FirstSeenNone(x.lines, sku);
    if y.lines != x.lines {
      FirstSeenAppend(x.lines, y.lines[|x.lines|], sku);
    }
  }

  lemma LineOnceOwn(s: State, l: Label, sku: string)
    requires Locking(s) && Enabled(s, l) && !l.Begin? && LineOnce(s.txns[l.t], sku) && Progress(s.txns[l.t], s.rows.Keys)
    ensures LineOnce(Apply(s, l).txns[l.t], sku)
  {
    match l
    case Read(_) => LineOnceRead(s, l, sku);
    case Decide(t) => NoImages(s, t);
    case Update(t) =>
      var x, y := s.txns[t], Apply(s, l).txns[t];
      if x.mode.ReadThenWrite? {
        assert x.lines[x.phase.next].sku in s.rows;
        assert y.phase.next == x.phase.next + 1;
      }
    case _ =>
  }

  lemma LineOnceStep(s: State, l: Label, t: nat, sku: string)
    requires Locking(s) && Enabled(s, l) && t < |Apply(s, l).txns|
    requires t < |s.txns| ==> LineOnce(s.txns[t], sku) && Progress(s.txns[t], s.rows.Keys)
    requires l.Begin? && l.mode.ReadThenWrite? ==> Once(l.items, sku)
    ensures LineOnce(Apply(s, l).txns[t], sku)
  {
    if t < |s.txns| {
      if !l.Begin? && l.t == t {
        LineOnceOwn(s, l, sku);
      } else {
        assert Apply(s, l).txns[t] == s.txns[t];
      }
    }
  }

  lemma {:induction false} AlwaysLineOnce(rows: map<string, int>, ls: seq<Label>, t: nat, sku: string)
    requires Legal(rows, ls) && NamedOnce(ls, sku) && t < |Exec(rows, ls).txns|
    ensures LineOnce(Exec(rows, ls).txns[t], sku)
  {
    var init, l := ls[..|ls| - 1], ls[|ls| - 1];
    RunStep(rows, ls);
    AlwaysOrderly(rows, init);
    if t < |Exec(rows, init).txns| {
      AlwaysLineOnce(rows, init, t, sku);
    }
    LineOnceStep(Exec(rows, init), l, t, sku);
  }

  /** How stale its one write is: what it saw less what was there. */
  ghost predicate DriftSeen(x: Txn, d: int, sku: string) {
    x.mode.ReadThenWrite? && x.phase.Reserving? && sku in x.before ==>
      FirstSeen(x.lines, sku).Some? && d == FirstSeen(x.lines, sku).value - x.before[sku]
  }

  lemma DriftSeenUpdate(s: State, l: Label, d: int, sku: string)
    requires Enabled(s, l) && l.Update? && Progress(s.txns[l.t], s.rows.Keys) && LineOnce(s.txns[l.t], sku)
    requires Restorable(s, s.txns[l.t], d, sku) && DriftSeen(s.txns[l.t], d, sku) && sku in s.rows
    ensures DriftSeen(Apply(s, l).txns[l.t], d + Staleness(s, l, sku), sku)
  {
    var x := s.txns[l.t];
    if x.mode.ReadThenWrite? && x.lines[x.phase.next].sku == sku {
      FirstSeenSole(x.lines, sku, x.phase.next);
    }
  }

  lemma DriftSeenStep(s: State, l: Label, t: nat, d: int, sku: string)
    requires Locking(s) && Enabled(s, l) && t < |s.txns| && Progress(s.txns[t], s.rows.Keys) && LineOnce(s.txns[t], sku)
    requires Restorable(s, s.txns[t], d, sku) && DriftSeen(s.txns[t], d, sku) && sku in s.rows
    ensures DriftSeen(Apply(s, l).txns[t], d + if l == Update(t) then Staleness(s, l, sku) else 0, sku)
  {
    if l == Update(t) {
      DriftSeenUpdate(s, l, d, sku);
    } else if l == Decide(t) {
      NoImages(s, t);
    }
  }

  lemma {:induction false} AlwaysDriftSeen(rows: map<string, int>, ls: seq<Label>, t: nat, sku: string)
    requires Legal(rows, ls) && NamedOnce(ls, sku) && sku in rows && t < |Exec(rows, ls).txns|
    ensures DriftSeen(Exec(rows, ls).txns[t], Drift(rows, ls, t, sku), sku)
  {
    var init, l := ls[..|ls| - 1], ls[|ls| - 1];
    RunStep(rows, ls);
    AlwaysOrderly(rows, init);
    var s := Exec(rows, init);
    if t < |s.txns| {
      AlwaysDriftSeen(rows, init, t, sku);
      AlwaysLineOnce(rows, init, t, sku);
      AlwaysRestorable(rows, init, sku);
      DriftSeenStep(s, l, t, Drift(rows, init, t, sku), sku);
    }
  }

  // ------------------------------------------------------------ committed stock

  lemma UpdateCommitsNothing(s: State, l: Label, sku: string)
    requires Locking(s) && Enabled(s, l) && l.Update? && sku in s.rows
    ensures sku in Apply(s, l).rows && CommittedStock(Apply(s, l), sku) == CommittedStock(s, sku)
  {
  }

  lemma RollbackCommitsNothing(s: State, t: nat, outcome: Outcome, sku: string)
    requires Locking(s) && t < |s.txns| && sku in s.rows
    ensures CommittedStock(Rollback(s, t, outcome), sku) == CommittedStock(s, sku)
  {
  }

  lemma TxnCommitsNothing(s: State, n: State, t: nat, sku: string)
    requires t < |s.txns| == |n.txns| && n.txns == s.txns[t := n.txns[t]] && n.rows == s.rows && n.locks == s.locks
    requires n.txns[t].before == s.txns[t].before && sku in s.rows
    ensures CommittedStock(n, sku) == CommittedStock(s, sku)
  {
  }

  predicate Commits(s: State, l: Label) {
    Enabled(s, l) && l.Finish? && s.txns[l.t].short == []
  }

  /** Only commits change committed stock and orders. */
  lemma NothingCommitted(s: State, l: Label, sku: string)
    requires Locking(s) && Enabled(s, l) && !Commits(s, l) && sku in s.rows
    ensures sku in Apply(s, l).rows && Apply(s, l).orders == s.orders
    ensures CommittedStock(Apply(s, l), sku) == CommittedStock(s, sku)
  {
    match l
    case Begin(_, _, _) =>
    case Read(t) => TxnCommitsNothing(s, Apply(s, l), t, sku);
    case Decide(t) =>
      NoImages(s, t);
      if s.txns[t].missing == [] && s.txns[t].mode.ReadThenWrite? && ShortSeen(s.txns[t].lines) != [] {
        RollbackCommitsNothing(s, t, OutOfStock(ShortSeen(s.txns[t].lines)), sku);
      } else {
        TxnCommitsNothing(s, Apply(s, l), t, sku);
      }
    case Update(_) => UpdateCommitsNothing(s, l, sku);
    case Finish(t) => RollbackCommitsNothing(s, t, OutOfStock(s.txns[t].short), sku);
    case Abort(t) => RollbackCommitsNothing(s, t, Aborted, sku);
  }

  /** A commit moves committed stock and orders by the checkout's drift. */
  lemma CommitDrifts(s: State, l: Label, d: int, sku: string)
    requires Locking(s) && Commits(s, l) && sku in s.rows && Progress(s.txns[l.t], s.rows.Keys)
    requires Restorable(s, s.txns[l.t], d, sku)
    ensures sku in Apply(s, l).rows
    ensures CommittedStock(Apply(s, l), sku) == CommittedStock(s, sku) - Qty(s.txns[l.t].lines, sku) + d
    ensures Sold(Apply(s, l).orders, sku) == Sold(s.orders, sku) + Qty(s.txns[l.t].lines, sku)
  {
    var x := s.txns[l.t];
    assert x.lines[..|x.lines|] == x.lines;
    SoldAppend(s.orders, Order(x.lines, !x.declines), sku);
    if sku in x.before {
      assert CommittedStock(s, sku) == x.before[sku];
    } else {
      CommitElsewhere(s, l.t, sku);
    }
  }

  lemma CommitElsewhere(s: State, t: nat, sku: string)
    requires Locking(s) && t < |s.txns| && sku in s.rows && sku !in s.txns[t].before
    ensures CommittedStock(Commit(s, t), sku) == CommittedStock(s, sku)
  {
  }

  // ------------------------------------------------------------- what was seen

  lemma {:induction false} LegalPrefix(rows: map<string, int>, ls: seq<Label>, i: nat)
    requires Legal(rows, ls) && i <= |ls|
    ensures Legal(rows, ls[..i])
    decreases |ls|
  {
    if i == |ls| {
      assert ls[..i] == ls;
    } else {
      RunStep(rows, ls);
      LegalPrefix(rows, ls[..|ls| - 1], i);
      assert ls[..|ls| - 1][..i] == ls[..i];
    }
  }

  lemma LoadPrefix(rows: map<string, int>, ls: seq<Label>, n: nat, i: nat, t: nat, sku: string)
    requires i < n <= |ls|
    ensures LoadAt(rows, ls[..n], i, t, sku) <==> LoadAt(rows, ls, i, t, sku)
    ensures SaleAt(rows, ls[..n], i, sku) <==> SaleAt(rows, ls, i, sku)
    ensures BlindSaleAt(rows, ls[..n], i, sku) <==> BlindSaleAt(rows, ls, i, sku)
  {
    assert ls[..n][..i] == ls[..i] && ls[..n][i] == ls[i];
  }

  /** Every line of a SKU shows what its checkout loaded first. */
  ghost predicate Repeats(lines: seq<Line>) {
    forall p :: 0 <= p < |lines| ==> FirstSeen(lines, lines[p].sku) == Some(lines[p].seen)
  }

  lemma RepeatsStep(s: State, l: Label, t: nat)
    requires Enabled(s, l) && t < |s.txns| && Repeats(s.txns[t].lines)
    ensures Repeats(Apply(s, l).txns[t].lines)
  {
    var x := s.txns[t];
    if l == Read(t) && x.items[x.phase.read].sku in s.rows {
      RepeatsMore(x.lines, Line(x.items[x.phase.read].sku, x.items[x.phase.read].qty, Loaded(s, t, x.items[x.phase.read].sku)));
    } else {
      assert Apply(s, l).txns[t].lines == x.lines;
    }
  }

  lemma RepeatsMore(lines: seq<Line>, line: Line)
    requires Repeats(lines) && FirstSeen(lines, line.sku) in {None, Some(line.seen)}
    ensures Repeats(lines + [line])
  {
    var more := lines + [line];
    forall p | 0 <= p < |more| ensures FirstSeen(more, more[p].sku) == Some(more[p].seen) {
      FirstSeenAppend(lines, line, more[p].sku);
    }
  }

  lemma {:induction false} AlwaysRepeats(rows: map<string, int>, ls: seq<Label>, t: nat)
    requires Legal(rows, ls) && t < |Exec(rows, ls).txns|
    ensures Repeats(Exec(rows, ls).txns[t].lines)
  {
    var init := ls[..|ls| - 1];
    RunStep(rows, ls);
    if t < |Exec(rows, init).txns| {
      AlwaysRepeats(rows, init, t);
      RepeatsStep(Exec(rows, init), ls[|ls| - 1], t);
    }
  }

  /** Pricing a SKU twice in one checkout shows the same availability twice, over every run,
      whatever commits in between. */
  lemma PricingRepeats(rows: map<string, int>, ls: seq<Label>, t: nat, p: nat, q: nat)
    requires Legal(rows, ls) && t < |Exec(rows, ls).txns|
    requires p < |Exec(rows, ls).txns[t].lines| && q < |Exec(rows, ls).txns[t].lines|
    requires Exec(rows, ls).txns[t].lines[p].sku == Exec(rows, ls).txns[t].lines[q].sku
    ensures Exec(rows, ls).txns[t].lines[p].seen == Exec(rows, ls).txns[t].lines[q].seen
  {
    AlwaysRepeats(rows, ls, t);
  }

  lemma SeenStep(s: State, l: Label, t: nat, sku: string)
    requires Enabled(s, l) && t < |s.txns|
    ensures t < |Apply(s, l).txns|
    ensures !Loads(s, l, t, sku) ==> FirstSeen(Apply(s, l).txns[t].lines, sku) == FirstSeen(s.txns[t].lines, sku)
    ensures Loads(s, l, t, sku) ==>
        sku in s.rows && FirstSeen(Apply(s, l).txns[t].lines, sku) == Some(Visible(s, t, sku))
  {
    var x, y := s.txns[t], Apply(s, l).txns[t];
    if l == Read(t) && y.lines != x.lines {
      FirstSeenAppend(x.lines, y.lines[|x.lines|], sku);
    }
  }

  /** A line shows the committed stock at the moment its checkout priced the SKU. */
  lemma {:induction false} LoadedAt(rows: map<string, int>, ls: seq<Label>, t: nat, sku: string) returns (i: nat)
    requires Legal(rows, ls) && sku in rows && t < |Exec(rows, ls).txns|
    requires FirstSeen(Exec(rows, ls).txns[t].lines, sku).Some?
    ensures LoadAt(rows, ls, i, t, sku)
    ensures FirstSeen(Exec(rows, ls).txns[t].lines, sku).value == CommittedStock(Exec(rows, ls[..i]), sku)
  {
    var n := |ls| - 1;
    RunStep(rows, ls);
    AlwaysOrderly(rows, ls[..n]);
    var s := Exec(rows, ls[..n]);
    assert FirstSeen([], sku) == None;
    if t < |s.txns| {
      SeenStep(s, ls[n], t, sku);
    }
    if t < |s.txns| && Loads(s, ls[n], t, sku) {
      i := n;
      NoImages(s, t);
    } else {
      i := LoadedAt(rows, ls[..n], t, sku);
      LoadPrefix(rows, ls, n, i, t, sku);
      assert ls[..n][..i] == ls[..i];
    }
  }

  lemma {:induction false} LoadStays(rows: map<string, int>, ls: seq<Label>, i: nat, t: nat, sku: string)
    requires Legal(rows, ls) && LoadAt(rows, ls, i, t, sku)
    ensures t < |Exec(rows, ls).txns| && FirstSeen(Exec(rows, ls).txns[t].lines, sku).Some?
    decreases |ls|
  {
    var n := |ls| - 1;
    RunStep(rows, ls);
    if i < n {
      LoadPrefix(rows, ls, n, i, t, sku);
      LoadStays(rows, ls[..n], i, t, sku);
    }
    SeenStep(Exec(rows, ls[..n]), ls[n], t, sku);
  }

  /** A checkout loads a SKU once. */
  lemma LoadsOnce(rows: map<string, int>, ls: seq<Label>, i: nat, j: nat, t: nat, sku: string)
    requires LoadAt(rows, ls, i, t, sku) && LoadAt(rows, ls, j, t, sku)
    ensures i == j
  {
    var a, b := if i < j then i else j, if i < j then j else i;
    if a < b {
      LoadPrefix(rows, ls, b, a, t, sku);
      LoadStays(rows, ls[..b], a, t, sku);
    }
  }

  // ------------------------------------------------------- conserving schedules

  lemma SaleStep(s: State, l: Label, sku: string)
    requires Enabled(s, l)
    ensures if Sells(s, l, sku) then Sold(Apply(s, l).orders, sku) > Sold(s.orders, sku)
            else Sold(Apply(s, l).orders, sku) == Sold(s.orders, sku)
  {
    if Commits(s, l) {
      SoldAppend(s.orders, Order(s.txns[l.t].lines, !s.txns[l.t].declines), sku);
    }
  }

  lemma NoSalePrefix(rows: map<string, int>, ls: seq<Label>, n: nat, i: nat, j: nat, sku: string)
    requires j <= n <= |ls|
    ensures NoSale(rows, ls[..n], i, j, sku) <==> NoSale(rows, ls, i, j, sku)
  {
    forall k | i <= k < j ensures SaleAt(rows, ls[..n], k, sku) <==> SaleAt(rows, ls, k, sku) {
      LoadPrefix(rows, ls, n, k, 0, sku);
    }
  }

  lemma NoSaleStep(rows: map<string, int>, ls: seq<Label>, i: nat, sku: string)
    requires i < |ls|
    ensures NoSale(rows, ls, i, |ls|, sku) <==> NoSale(rows, ls[..|ls| - 1], i, |ls| - 1, sku) && !SaleAt(rows, ls, |ls| - 1, sku)
  {
    NoSalePrefix(rows, ls, |ls| - 1, i, |ls| - 1, sku);
  }

  /** Sales only grow, and stand still exactly while nobody sells. */
  lemma {:induction false} SalesGrow(rows: map<string, int>, ls: seq<Label>, sku: string, i: nat)
    requires Legal(rows, ls) && i <= |ls|
    ensures Legal(rows, ls[..i])
    ensures Sold(Exec(rows, ls).orders, sku) >= Sold(Exec(rows, ls[..i]).orders, sku)
    ensures Sold(Exec(rows, ls).orders, sku) == Sold(Exec(rows, ls[..i]).orders, sku) <==> NoSale(rows, ls, i, |ls|, sku)
    decreases |ls|
  {
    if i == |ls| {
      assert ls[..i] == ls;
    } else {
      var n := |ls| - 1;
      RunStep(rows, ls);
      SalesGrow(rows, ls[..n], sku, i);
      assert ls[..n][..i] == ls[..i];
      SaleStep(Exec(rows, ls[..n]), ls[n], sku);
      NoSaleStep(rows, ls, i, sku);
    }
  }

  /** What the last step adds: a blind sale needs a quiet time since its pricing. */
  lemma SerialisedPrefix(rows: map<string, int>, ls: seq<Label>, n: nat, sku: string)
    requires n <= |ls| && Serialised(rows, ls, sku)
    ensures Serialised(rows, ls[..n], sku)
  {
    forall i, j | 0 <= i < j < n && BlindSaleAt(rows, ls[..n], j, sku) && LoadAt(rows, ls[..n], i, ls[..n][j].t, sku)
      ensures NoSale(rows, ls[..n], i, j, sku)
    {
      LoadPrefix(rows, ls, n, j, 0, sku);
      LoadPrefix(rows, ls, n, i, ls[j].t, sku);
      assert NoSale(rows, ls, i, j, sku);
      NoSalePrefix(rows, ls, n, i, j, sku);
    }
  }

  lemma SerialisedStep(rows: map<string, int>, ls: seq<Label>, sku: string)
    requires |ls| > 0 && !BlindSaleAt(rows, ls, |ls| - 1, sku)
    ensures Serialised(rows, ls, sku) <==> Serialised(rows, ls[..|ls| - 1], sku)
  {
    var n := |ls| - 1;
    if Serialised(rows, ls, sku) {
      SerialisedPrefix(rows, ls, n, sku);
    }
    if Serialised(rows, ls[..n], sku) {
      forall i, j | 0 <= i < j < |ls| && BlindSaleAt(rows, ls, j, sku) && LoadAt(rows, ls, i, ls[j].t, sku)
        ensures NoSale(rows, ls, i, j, sku)
      {
        SerialisedBelow(rows, ls, n, i, j, sku);
      }
    }
  }

  lemma SerialisedBelow(rows: map<string, int>, ls: seq<Label>, n: nat, i: nat, j: nat, sku: string)
    requires i < j < n <= |ls| && Serialised(rows, ls[..n], sku)
    requires BlindSaleAt(rows, ls, j, sku) && LoadAt(rows, ls, i, ls[j].t, sku)
    ensures NoSale(rows, ls, i, j, sku)
  {
    LoadPrefix(rows, ls, n, j, 0, sku);
    LoadPrefix(rows, ls, n, i, ls[j].t, sku);
    assert ls[..n][j] == ls[j];
    assert NoSale(rows, ls[..n], i, j, sku);
    NoSalePrefix(rows, ls, n, i, j, sku);
  }

  /** A run that ends in a blind sale is serialised when it was serialised at that checkout's
      pricing and nobody has sold since. */
  lemma SerialisedAtSale(rows: map<string, int>, ls: seq<Label>, i: nat, sku: string)
    requires |ls| > 0 && BlindSaleAt(rows, ls, |ls| - 1, sku) && LoadAt(rows, ls, i, ls[|ls| - 1].t, sku) && i < |ls| - 1
    ensures Serialised(rows, ls, sku) <==> Serialised(rows, ls[..i], sku) && NoSale(rows, ls, i, |ls| - 1, sku)
  {
    var n := |ls| - 1;
    if Serialised(rows, ls, sku) {
      SerialisedPrefix(rows, ls, i, sku);
    }
    if Serialised(rows, ls[..i], sku) && NoSale(rows, ls, i, n, sku) {
      forall a, j | 0 <= a < j < |ls| && BlindSaleAt(rows, ls, j, sku) && LoadAt(rows, ls, a, ls[j].t, sku)
        ensures NoSale(rows, ls, a, j, sku)
      {
        if j < i {
          SerialisedBelow(rows, ls, i, a, j, sku);
        } else if j == n {
          LoadsOnce(rows, ls, a, i, ls[n].t, sku);
        }
      }
    }
  }

  /** Committed stock and committed orders, less the initial stock. */
  ghost function Excess(rows: map<string, int>, ls: seq<Label>, sku: string): int
    requires Legal(rows, ls) && sku in Exec(rows, ls).rows && sku in rows
  {
    CommittedStock(Exec(rows, ls), sku) + Sold(Exec(rows, ls).orders, sku) - rows[sku]
  }

  /** A blind sale leaves what its checkout saw less what it took. */
  lemma BlindSaleWrites(rows: map<string, int>, ls: seq<Label>, sku: string)
    requires Legal(rows, ls) && NamedOnce(ls, sku) && sku in rows && |ls| > 0 && BlindSaleAt(rows, ls, |ls| - 1, sku)
    ensures var x := Exec(rows, ls[..|ls| - 1]).txns[ls[|ls| - 1].t];
        && sku in Exec(rows, ls).rows && FirstSeen(x.lines, sku).Some?
        && CommittedStock(Exec(rows, ls), sku) == FirstSeen(x.lines, sku).value - Qty(x.lines, sku)
        && Sold(Exec(rows, ls).orders, sku) == Sold(Exec(rows, ls[..|ls| - 1]).orders, sku) + Qty(x.lines, sku)
  {
    var init, t := ls[..|ls| - 1], ls[|ls| - 1].t;
    RunStep(rows, ls);
    AlwaysOrderly(rows, init);
    AlwaysLineOnce(rows, init, t, sku);
    AlwaysDriftSeen(rows, init, t, sku);
    AlwaysRestorable(rows, init, sku);
    var s := Exec(rows, init);
    CommitDrifts(s, ls[|ls| - 1], Drift(rows, init, t, sku), sku);
    var p := QtyNamed(s.txns[t].lines, sku);
    assert sku in s.txns[t].before;
  }

  /** ... so the excess of its pricing is back, plus whatever has been sold since. */
  lemma ExcessAtSale(rows: map<string, int>, ls: seq<Label>, sku: string) returns (i: nat)
    requires Legal(rows, ls) && NamedOnce(ls, sku) && sku in rows && |ls| > 0 && BlindSaleAt(rows, ls, |ls| - 1, sku)
    ensures i < |ls| - 1 && LoadAt(rows, ls, i, ls[|ls| - 1].t, sku)
    ensures sku in Exec(rows, ls).rows && sku in Exec(rows, ls[..i]).rows
    ensures Excess(rows, ls, sku) == Excess(rows, ls[..i], sku)
        + Sold(Exec(rows, ls[..|ls| - 1]).orders, sku) - Sold(Exec(rows, ls[..i]).orders, sku)
  {
    var n := |ls| - 1;
    BlindSaleWrites(rows, ls, sku);
    i := LoadedAt(rows, ls[..n], ls[n].t, sku);
    LoadPrefix(rows, ls, n, i, ls[n].t, sku);
    assert ls[..n][..i] == ls[..i];
  }

  lemma ExcessKept(rows: map<string, int>, ls: seq<Label>, sku: string)
    requires Legal(rows, ls) && NamedOnce(ls, sku) && sku in rows && |ls| > 0 && !BlindSaleAt(rows, ls, |ls| - 1, sku)
    ensures Legal(rows, ls[..|ls| - 1]) && sku in Exec(rows, ls).rows && sku in Exec(rows, ls[..|ls| - 1]).rows
    ensures Excess(rows, ls, sku) == Excess(rows, ls[..|ls| - 1], sku)
  {
    var init, l := ls[..|ls| - 1], ls[|ls| - 1];
    RunStep(rows, ls);
    AlwaysOrderly(rows, init);
    var s := Exec(rows, init);
    if Commits(s, l) {
      AlwaysRestorable(rows, init, sku);
      CommitDrifts(s, l, Drift(rows, init, l.t, sku), sku);
      NoDrift(rows, init, l, sku);
    } else {
      NothingCommitted(s, l, sku);
    }
  }

  /** An ATOMIC commit, or one that does not touch the SKU, has no drift on it. */
  lemma NoDrift(rows: map<string, int>, ls: seq<Label>, l: Label, sku: string)
    requires Legal(rows, ls) && NamedOnce(ls, sku) && sku in rows && Commits(Exec(rows, ls), l)
    requires Exec(rows, ls).txns[l.t].mode.Atomic? || !Sells(Exec(rows, ls), l, sku)
    ensures Drift(rows, ls, l.t, sku) == 0
  {
    var x := Exec(rows, ls).txns[l.t];
    if x.mode.Atomic? {
      AtomicNoDrift(rows, ls, l.t, sku);
    } else {
      AlwaysLineOnce(rows, ls, l.t, sku);
      AlwaysRestorable(rows, ls, sku);
      if p :| 0 <= p < |x.lines| && x.lines[p].sku == sku {
        QtySome(x.lines, sku, p);
      }
    }
  }

  /** Over every run of such checkouts, whatever commits, aborts or is rejected: at any point
      the committed stock and the committed orders account for at least the initial stock, and
      for no more exactly when each READ_THEN_WRITE sale priced after the previous sale. */
  lemma {:induction false} SerialisedConserves(rows: map<string, int>, ls: seq<Label>, sku: string)
    requires Legal(rows, ls) && NamedOnce(ls, sku) && sku in rows
    ensures sku in Exec(rows, ls).rows
    ensures Excess(rows, ls, sku) >= 0
    ensures Excess(rows, ls, sku) == 0 <==> Serialised(rows, ls, sku)
    decreases |ls|
  {
    AlwaysOrderly(rows, ls);
    if |ls| > 0 {
      var n := |ls| - 1;
      RunStep(rows, ls);
      if BlindSaleAt(rows, ls, n, sku) {
        var i := ExcessAtSale(rows, ls, sku);
        SerialisedConserves(rows, ls[..i], sku);
        SalesGrow(rows, ls[..n], sku, i);
        assert ls[..n][..i] == ls[..i];
        NoSalePrefix(rows, ls, n, i, n, sku);
        SerialisedAtSale(rows, ls, i, sku);
      } else {
        SerialisedConserves(rows, ls[..n], sku);
        ExcessKept(rows, ls, sku);
        SerialisedStep(rows, ls, sku);
      }
    }
  }

  lemma NothingLocked(s: State, sku: string)
    requires Locking(s) && sku in s.rows && forall t :: 0 <= t < |s.txns| ==> s.txns[t].phase.Done?
    ensures CommittedStock(s, sku) == s.rows[sku]
  {
  }

  lemma NothingReserved(s: State, sku: string)
    requires forall t :: 0 <= t < |s.txns| ==> s.txns[t].phase.Done?
    ensures OpenReserved(s.txns, sku) == 0
  {
    SumPositive(Hold(sku), s.txns);
  }

  /** The form a caller can check: when all such checkouts are over, stock left plus stock sold
      is the initial stock if and only if the run was serialised; so that is when the staleness
      of the run cancels out. */
  lemma SettledConservedExactly(rows: map<string, int>, ls: seq<Label>, sku: string)
    requires Legal(rows, ls) && NamedOnce(ls, sku) && sku in rows
    requires forall t :: 0 <= t < |Exec(rows, ls).txns| ==> Exec(rows, ls).txns[t].phase.Done?
    ensures var s := Exec(rows, ls);
        sku in s.rows && (s.rows[sku] + Sold(s.orders, sku) == rows[sku] <==> Serialised(rows, ls, sku))
    ensures Stale(rows, ls, sku) == 0 <==> Serialised(rows, ls, sku)
  {
    AlwaysOrderly(rows, ls);
    SerialisedConserves(rows, ls, sku);
    NothingLocked(Exec(rows, ls), sku);
    NothingReserved(Exec(rows, ls), sku);
    ConservedExactly(rows, ls, sku);
  }
}
