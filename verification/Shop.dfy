/** examples/demo_shop/store.py: the checkout handler, and its tie to the step system. */
module Shop {
  import opened Sequences
  import opened Inventory
  import opened ReserveModes
  import opened CheckoutParts

  class Store {
    var rows: map<string, int>   // Inventory.available by SKU
    var orders: seq<Order>

    constructor (stock: map<string, int>)
      ensures rows == stock && orders == []
    {
      rows, orders := stock, [];
    }

    method Price(items: seq<Item>) returns (lines: seq<Line>, missing: seq<string>)
      ensures lines == Priced(rows, items) && missing == Missing(rows, items)
      ensures lines == MapSeq(LineFor(rows), Select(InStock(rows), items, true))
      ensures missing == MapSeq(ItemSku, Select(InStock(rows), items, false))
    {
      PricingIs(rows, items);
      lines, missing := [], [];
      for i := 0 to |items|
        invariant lines == Priced(rows, items[..i]) && missing == Missing(rows, items[..i])
      {
        var item := items[i];
        assert items[..i + 1][..i] == items[..i];
        if item.sku !in rows {
          missing := missing + [item.sku];
          continue;
        }
        lines := lines + [Line(item.sku, item.qty, rows[item.sku])];
      }
      assert items[..|items|] == items;
    }

    method ReserveAtomic(lines: seq<Line>) returns (short: seq<string>)
      modifies `rows
      ensures (rows, short) == TakeAtomic(old(rows), lines)
      ensures exists hit :: TakenInTurn(old(rows), lines, hit, rows, short)
    {
      ghost var hit := TakesInTurn(rows, lines);
      short := [];
      for i := 0 to |lines|
        invariant (rows, short) == TakeAtomic(old(rows), lines[..i])
      {
        var line := lines[i];
        assert lines[..i + 1][..i] == lines[..i];
        if line.sku in rows && rows[line.sku] >= line.qty {
          rows := rows[line.sku := rows[line.sku] - line.qty];
        } else {
          short := short + [line.sku];
        }
      }
      assert lines[..|lines|] == lines;
    }

    method ReserveReadThenWrite(lines: seq<Line>) returns (short: seq<string>)
      modifies `rows
      ensures (rows, short) == Reserve(ReadThenWrite, old(rows), lines)
      ensures short == MapSeq(LineSku, Select(AsksTooMuch, lines, true))
      ensures if short != [] then rows == old(rows) else WrittenBack(old(rows), lines, rows)
    {
      short := [];
      for i := 0 to |lines|
        invariant short == ShortSeen(lines[..i])
      {
        assert lines[..i + 1][..i] == lines[..i];
        if lines[i].seen < lines[i].qty {
          short := short + [lines[i].sku];
        }
      }
      assert lines[..|lines|] == lines;
      ShortIs(lines);
      if |short| > 0 {
        return;
      }
      WriteAll(lines);
    }

    /** The absolute UPDATEs. */
    method WriteAll(lines: seq<Line>)
      modifies `rows
      ensures rows == WriteSeen(old(rows), lines) && WrittenBack(old(rows), lines, rows)
    {
      WritesBack(rows, lines);
      for i := 0 to |lines|
        invariant rows == WriteSeen(old(rows), lines[..i])
      {
        var line := lines[i];
        assert lines[..i + 1][..i] == lines[..i];
        if line.sku in rows {
          rows := rows[line.sku := line.seen - line.qty];
        }
      }
      assert lines[..|lines|] == lines;
    }

    method ReserveBy(mode: Mode, lines: seq<Line>) returns (short: seq<string>)
      modifies `rows
      ensures (rows, short) == Reserve(mode, old(rows), lines)
    {
      if mode.Atomic? {
        short := ReserveAtomic(lines);
      } else {
        short := ReserveReadThenWrite(lines);
      }
    }

    /** `known`: the handle names a user; `cart.declines`: the gateway refuses this order. */
    method Checkout(known: bool, mode: Mode, cart: Cart) returns (outcome: Outcome)
      modifies this
      ensures !known ==> outcome == Unauthorized && rows == old(rows) && orders == old(orders)
      ensures known ==> (outcome, rows) == Serial(mode, old(rows), cart)
      ensures known ==> orders == old(orders) + Committed(outcome, Priced(old(rows), cart.items))
      ensures outcome in {Confirmed, Declined} ==>
          && outcome == (if cart.declines then Declined else Confirmed)
          && orders == old(orders) + [Order(MapSeq(LineFor(old(rows)), cart.items), !cart.declines)]
      ensures outcome !in {Confirmed, Declined} ==> rows == old(rows) && orders == old(orders)
      ensures known ==> (outcome.UnknownSku? <==> exists i :: 0 <= i < |cart.items| && cart.items[i].sku !in old(rows))
    {
      if !known {
        return Unauthorized;
      }
      MissingMeans(rows, cart.items);
      var lines, missing := Price(cart.items);
      if |missing| > 0 {
        return UnknownSku(missing);
      }
      var before := rows;
      var short := ReserveBy(mode, lines);
      if |short| > 0 {
        rows := before;   // rollback
        return OutOfStock(short);
      }
      orders := orders + [Order(lines, !cart.declines)];
      outcome := if cart.declines then Declined else Confirmed;
    }
  }

  /** A declined payment commits its (pending) order too. */
  function Committed(outcome: Outcome, lines: seq<Line>): seq<Order> {
    match outcome
    case Confirmed => [Order(lines, true)]
    case Declined => [Order(lines, false)]
    case _ => []
  }

  // ------------------------------------------------ the steps, run without company

  ghost function Steps(s: State, ls: seq<Label>): Option<State> {
    if |ls| == 0 then Some(s)
    else match Steps(s, ls[..|ls| - 1])
      case None => None
      case Some(m) => if Enabled(m, ls[|ls| - 1]) then Some(Apply(m, ls[|ls| - 1])) else None
  }

  lemma StepsExtend(s: State, ls: seq<Label>, m: State, l: Label)
    requires Steps(s, ls) == Some(m) && Enabled(m, l)
    ensures Steps(s, ls + [l]) == Some(Apply(m, l))
  {
    assert (ls + [l])[..|ls|] == ls;
  }

  lemma {:induction false} StepsThen(s: State, a: seq<Label>, m: State, b: seq<Label>)
    requires Steps(s, a) == Some(m)
    ensures Steps(s, a + b) == Steps(m, b)
  {
    if |b| == 0 {
      assert a + b == a;
    } else {
      StepsThen(s, a, m, b[..|b| - 1]);
      assert (a + b)[..|a + b| - 1] == a + b[..|b| - 1];
    }
  }

  lemma {:induction false} StepsAreRuns(rows: map<string, int>, ls: seq<Label>)
    ensures Run(rows, ls) == Steps(Opening(rows), ls)
  {
    if |ls| > 0 {
      StepsAreRuns(rows, ls[..|ls| - 1]);
    }
  }

  function PricedTo(s: State, t: nat, k: nat): State
    requires t < |s.txns| && k <= |s.txns[t].items|
  {
    var x := s.txns[t];
    Set(s, t, x.(phase := Pricing(k), lines := Priced(s.rows, x.items[..k]), missing := Missing(s.rows, x.items[..k])))
  }

  /** Nobody changes the stock meanwhile, so the value loaded first is the value there. */
  lemma {:induction false} PricedSeen(rows: map<string, int>, items: seq<Item>, sku: string)
    requires sku in rows
    ensures FirstSeen(Priced(rows, items), sku) in {None, Some(rows[sku])}
  {
    if |items| > 0 {
      var init, last := items[..|items| - 1], items[|items| - 1];
      PricedSeen(rows, init, sku);
      if last.sku in rows {
        assert Priced(rows, items)[..|Priced(rows, init)|] == Priced(rows, init);
      }
    }
  }

  lemma LoadedAlone(s: State, t: nat, k: nat, sku: string)
    requires s.locks == map[] && t < |s.txns| && k <= |s.txns[t].items| && sku in s.rows
    ensures Loaded(PricedTo(s, t, k), t, sku) == s.rows[sku]
  {
    PricedSeen(s.rows, s.txns[t].items[..k], sku);
    assert !Held(PricedTo(s, t, k), t, sku);
  }

  /** What pricing one more item adds. */
  lemma PricedMore(s: State, t: nat, k: nat)
    requires t < |s.txns| && k < |s.txns[t].items|
    ensures var x := s.txns[t]; var item := x.items[k];
        && Priced(s.rows, x.items[..k + 1]) == (if item.sku in s.rows
             then Priced(s.rows, x.items[..k]) + [Line(item.sku, item.qty, s.rows[item.sku])] else Priced(s.rows, x.items[..k]))
        && Missing(s.rows, x.items[..k + 1]) == (if item.sku in s.rows
             then Missing(s.rows, x.items[..k]) else Missing(s.rows, x.items[..k]) + [item.sku])
  {
    var items := s.txns[t].items;
    assert items[..k + 1][..k] == items[..k];
  }

  lemma ReadStep(s: State, t: nat, k: nat)
    requires s.locks == map[] && t < |s.txns| && k < |s.txns[t].items|
    ensures Enabled(PricedTo(s, t, k), Read(t)) && Apply(PricedTo(s, t, k), Read(t)) == PricedTo(s, t, k + 1)
  {
    var item := s.txns[t].items[k];
    if item.sku in s.rows {
      LoadedAlone(s, t, k, item.sku);
    }
    PricedMore(s, t, k);
    assert Apply(PricedTo(s, t, k), Read(t)).txns[t] == PricedTo(s, t, k + 1).txns[t];
  }

  lemma PricedToZero(s: State, t: nat)
    requires t < |s.txns| && s.txns[t].phase == Pricing(0) && s.txns[t].lines == [] && s.txns[t].missing == []
    ensures PricedTo(s, t, 0) == s
  {
    assert s.txns[t].items[..0] == [];
    assert s.txns[t := s.txns[t]] == s.txns;
  }

  /** After `k` updates with all locks its own. */
  ghost predicate Midway(s: State, n: State, t: nat, k: nat)
    requires t < |s.txns| && k <= |s.txns[t].lines|
  {
    && |n.txns| == |s.txns| && n.orders == s.orders && n.rows.Keys == s.rows.Keys
    && n.txns == s.txns[t := n.txns[t]]
    && n.txns[t].phase == Reserving(k)
    && n.txns[t].mode == s.txns[t].mode && n.txns[t].lines == s.txns[t].lines && n.txns[t].declines == s.txns[t].declines
    && (forall sku :: sku in n.locks ==> n.locks[sku] == t)
    && (forall sku :: sku in s.rows ==> s.rows[sku] == if sku in n.txns[t].before then n.txns[t].before[sku] else n.rows[sku])
    && (n.rows, n.txns[t].short) ==
       if s.txns[t].mode.Atomic? then TakeAtomic(s.rows, s.txns[t].lines[..k])
       else (WriteSeen(s.rows, s.txns[t].lines[..k]), [])
  }

  lemma MidwayFree(s: State, m: State, t: nat, k: nat, sku: string)
    requires t < |s.txns| && k <= |s.txns[t].lines| && Midway(s, m, t, k)
    ensures !Held(m, t, sku)
  {
  }

  lemma MidwayWrite(s: State, m: State, t: nat, k: nat, value: int)
    requires t < |s.txns| && k < |s.txns[t].lines| && Midway(s, m, t, k)
    requires s.txns[t].lines[k].sku in m.rows
    requires var line := s.txns[t].lines[k];
        && value == (if s.txns[t].mode.Atomic? then m.rows[line.sku] - line.qty else line.seen - line.qty)
        && (s.txns[t].mode.Atomic? ==> m.rows[line.sku] >= line.qty)
    ensures Midway(s, Write(m, t, s.txns[t].lines[k], value), t, k + 1)
  {
    var lines := s.txns[t].lines;
    assert lines[..k + 1][..k] == lines[..k];
  }

  lemma MidwaySkip(s: State, m: State, n: State, t: nat, k: nat)
    requires t < |s.txns| && k < |s.txns[t].lines| && Midway(s, m, t, k)
    requires var line := s.txns[t].lines[k]; var x := m.txns[t].(phase := Reserving(k + 1));
        && (line.sku in m.rows ==> s.txns[t].mode.Atomic? && m.rows[line.sku] < line.qty)
        && n == Set(m, t, if s.txns[t].mode.Atomic? then x.(short := x.short + [line.sku]) else x)
    ensures Midway(s, n, t, k + 1)
  {
    var lines := s.txns[t].lines;
    assert lines[..k + 1][..k] == lines[..k];
  }

  lemma MidwayStep(s: State, m: State, t: nat, k: nat)
    requires t < |s.txns| && k < |s.txns[t].lines| && Midway(s, m, t, k)
    ensures Enabled(m, Update(t)) && Midway(s, Apply(m, Update(t)), t, k + 1)
  {
    var line := s.txns[t].lines[k];
    MidwayFree(s, m, t, k, line.sku);
    if line.sku in m.rows && (s.txns[t].mode.Atomic? ==> m.rows[line.sku] >= line.qty) {
      MidwayWrite(s, m, t, k, if s.txns[t].mode.Atomic? then m.rows[line.sku] - line.qty else line.seen - line.qty);
    } else {
      MidwaySkip(s, m, Apply(m, Update(t)), t, k);
    }
  }

  lemma MidwayStart(s: State, t: nat)
    requires s.locks == map[] && t < |s.txns|
    requires s.txns[t].phase == Reserving(0) && s.txns[t].before == map[] && s.txns[t].short == []
    ensures Midway(s, s, t, 0)
  {
    assert s.txns[t := s.txns[t]] == s.txns;
    assert s.txns[t].lines[..0] == [];
  }

  /** What a checkout leaves behind when it ends with `outcome` and `rows`. */
  ghost predicate EndsAs(s: State, n: State, outcome: Outcome, rows: map<string, int>, orders: seq<Order>) {
    && n.rows == rows && n.locks == map[] && n.orders == s.orders + orders
    && |n.txns| == |s.txns| + 1 && n.txns[..|s.txns|] == s.txns
    && n.txns[|s.txns|].phase == Done(outcome)
  }

  lemma FinishMidway(s: State, b: State, m: State, t: nat)
    requires t == |s.txns| && |b.txns| == t + 1 && b.txns[..t] == s.txns && b.rows == s.rows && b.orders == s.orders
    requires Midway(b, m, t, |b.txns[t].lines|)
    ensures Enabled(m, Finish(t))
    ensures var n := Apply(m, Finish(t)); var x := b.txns[t]; var short := m.txns[t].short;
        if short != [] then EndsAs(s, n, OutOfStock(short), s.rows, [])
        else EndsAs(s, n, if x.declines then Declined else Confirmed, m.rows, [Order(x.lines, !x.declines)])
  {
    var n := Apply(m, Finish(t));
    assert n.locks == map[];
    assert n.txns[..t] == m.txns[..t] == b.txns[..t];
    if m.txns[t].short != [] {
      assert n.rows == s.rows;
    }
  }

  lemma DecideAlone(s: State, p: State, mode: Mode, cart: Cart)
    requires s.locks == map[]
    requires p == s.(txns := s.txns + [Txn(mode, cart.items, cart.declines, Pricing(|cart.items|), Priced(s.rows, cart.items), Missing(s.rows, cart.items), [], [], map[])])
    ensures Enabled(p, Decide(|s.txns|))
    ensures var d := Apply(p, Decide(|s.txns|)); var x := p.txns[|s.txns|];
        if x.missing != [] then EndsAs(s, d, UnknownSku(x.missing), s.rows, [])
        else if mode.ReadThenWrite? && ShortSeen(x.lines) != [] then EndsAs(s, d, OutOfStock(ShortSeen(x.lines)), s.rows, [])
        else d == Set(p, |s.txns|, x.(phase := Reserving(0)))
  {
    var d := Apply(p, Decide(|s.txns|));
    assert d.txns[..|s.txns|] == s.txns;
    assert Undone(p.rows, map[]) == p.rows;
    assert Release(p.locks, |s.txns|) == map[];
    assert s.orders + [] == s.orders;
  }

  // ------------------------------------------------------ every solo schedule

  function Started(s: State, mode: Mode, cart: Cart): State {
    s.(txns := s.txns + [Txn(mode, cart.items, cart.declines, Pricing(0), [], [], [], [], map[])])
  }

  /** The new transaction when it starts to reserve. */
  function ToReserve(s: State, mode: Mode, cart: Cart): State {
    var p := PricedTo(Started(s, mode, cart), |s.txns|, |cart.items|);
    Set(p, |s.txns|, p.txns[|s.txns|].(phase := Reserving(0)))
  }

  /** Where a checkout that has the database to itself can be, and how it ends. */
  ghost predicate OnCourse(s: State, mode: Mode, cart: Cart, m: State) {
    var t := |s.txns|;
    && |m.txns| == t + 1
    && match m.txns[t].phase
       case Pricing(k) => k <= |cart.items| && m == PricedTo(Started(s, mode, cart), t, k)
       case Reserving(k) =>
         && Missing(s.rows, cart.items) == []
         && (mode.ReadThenWrite? ==> ShortSeen(Priced(s.rows, cart.items)) == [])
         && k <= |Priced(s.rows, cart.items)| && Reserves(s, mode, cart, m, k)
       case Done(_) =>
         var (outcome, rows) := Serial(mode, s.rows, cart);
         EndsAs(s, m, outcome, rows, Committed(outcome, Priced(s.rows, cart.items)))
  }

  ghost predicate Reserves(s: State, mode: Mode, cart: Cart, m: State, k: nat) {
    var d := ToReserve(s, mode, cart);
    k <= |d.txns[|s.txns|].lines| && Midway(d, m, |s.txns|, k)
  }

  lemma ReserveShape(s: State, mode: Mode, cart: Cart)
    ensures var d := ToReserve(s, mode, cart); var x := d.txns[|s.txns|];
        && d.rows == s.rows && d.orders == s.orders && d.locks == s.locks && |d.txns| == |s.txns| + 1 && d.txns[..|s.txns|] == s.txns
        && x.lines == Priced(s.rows, cart.items) && x.mode == mode && x.declines == cart.declines
        && x.phase == Reserving(0) && x.before == map[] && x.short == []
  {
    assert cart.items[..|cart.items|] == cart.items;
  }

  lemma CourseRead(s: State, mode: Mode, cart: Cart, m: State)
    requires s.locks == map[] && OnCourse(s, mode, cart, m) && Enabled(m, Read(|s.txns|))
    ensures OnCourse(s, mode, cart, Apply(m, Read(|s.txns|)))
  {
    ReadStep(Started(s, mode, cart), |s.txns|, m.txns[|s.txns|].phase.read);
  }

  lemma CourseDecide(s: State, mode: Mode, cart: Cart, m: State)
    requires s.locks == map[] && OnCourse(s, mode, cart, m) && Enabled(m, Decide(|s.txns|))
    ensures OnCourse(s, mode, cart, Apply(m, Decide(|s.txns|)))
  {
    var t := |s.txns|;
    assert cart.items[..|cart.items|] == cart.items;
    var x := Started(s, mode, cart).txns[t].(phase := Pricing(|cart.items|), lines := Priced(s.rows, cart.items), missing := Missing(s.rows, cart.items));
    assert m.txns == s.txns + [x];
    DecideAlone(s, m, mode, cart);
    if Apply(m, Decide(t)).txns[t].phase.Reserving? {
      ReserveShape(s, mode, cart);
      assert Apply(m, Decide(t)) == ToReserve(s, mode, cart);
      MidwayStart(ToReserve(s, mode, cart), t);
    }
  }

  lemma CourseUpdate(s: State, mode: Mode, cart: Cart, m: State)
    requires OnCourse(s, mode, cart, m) && Enabled(m, Update(|s.txns|))
    ensures OnCourse(s, mode, cart, Apply(m, Update(|s.txns|)))
  {
    var k := m.txns[|s.txns|].phase.next;
    ReserveShape(s, mode, cart);
    MidwayStep(ToReserve(s, mode, cart), m, |s.txns|, k);
  }

  /** What reserving all lines comes to. */
  lemma AllReserved(s: State, mode: Mode, cart: Cart, m: State)
    requires OnCourse(s, mode, cart, m) && Enabled(m, Finish(|s.txns|))
    ensures (m.rows, m.txns[|s.txns|].short) == Reserve(mode, s.rows, Priced(s.rows, cart.items))
    ensures Reserves(s, mode, cart, m, |Priced(s.rows, cart.items)|)
  {
    ReserveShape(s, mode, cart);
    var lines := Priced(s.rows, cart.items);
    assert lines[..|lines|] == lines;
  }

  lemma FinishSettles(s: State, mode: Mode, cart: Cart, m: State)
    requires OnCourse(s, mode, cart, m) && Enabled(m, Finish(|s.txns|))
    ensures var n := Apply(m, Finish(|s.txns|)); var short := m.txns[|s.txns|].short; var lines := Priced(s.rows, cart.items);
        if short != [] then EndsAs(s, n, OutOfStock(short), s.rows, [])
        else EndsAs(s, n, if cart.declines then Declined else Confirmed, m.rows, [Order(lines, !cart.declines)])
  {
    ReserveShape(s, mode, cart);
    FinishMidway(s, ToReserve(s, mode, cart), m, |s.txns|);
  }

  /** How the handler ends once everything is priced. */
  lemma SerialEnds(mode: Mode, rows: map<string, int>, cart: Cart)
    requires Missing(rows, cart.items) == []
    ensures var (now, short) := Reserve(mode, rows, Priced(rows, cart.items));
        Serial(mode, rows, cart) == if short != [] then (OutOfStock(short), rows) else (if cart.declines then Declined else Confirmed, now)
  {
  }

  lemma EndsOnCourse(s: State, mode: Mode, cart: Cart, n: State)
    requires var (outcome, rows) := Serial(mode, s.rows, cart);
        EndsAs(s, n, outcome, rows, Committed(outcome, Priced(s.rows, cart.items)))
    ensures OnCourse(s, mode, cart, n)
  {
  }

  lemma CourseFinish(s: State, mode: Mode, cart: Cart, m: State)
    requires OnCourse(s, mode, cart, m) && Enabled(m, Finish(|s.txns|))
    ensures OnCourse(s, mode, cart, Apply(m, Finish(|s.txns|)))
  {
    FinishSettles(s, mode, cart, m);
    AllReserved(s, mode, cart, m);
    SerialEnds(mode, s.rows, cart);
    EndsOnCourse(s, mode, cart, Apply(m, Finish(|s.txns|)));
  }

  /** The labels of one checkout with nobody else's between them, and no abort. */
  ghost predicate Solo(ls: seq<Label>, t: nat, mode: Mode, cart: Cart) {
    && |ls| > 0 && ls[0] == Begin(mode, cart.items, cart.declines)
    && forall i :: 1 <= i < |ls| ==> Own(ls[i], t)
  }

  predicate Own(l: Label, t: nat) {
    !l.Begin? && !l.Abort? && l.t == t
  }

  lemma CourseStep(s: State, mode: Mode, cart: Cart, m: State, l: Label)
    requires s.locks == map[] && OnCourse(s, mode, cart, m) && Enabled(m, l) && Own(l, |s.txns|)
    ensures OnCourse(s, mode, cart, Apply(m, l))
  {
    match l
    case Read(_) => CourseRead(s, mode, cart, m);
    case Decide(_) => CourseDecide(s, mode, cart, m);
    case Update(_) => CourseUpdate(s, mode, cart, m);
    case Finish(_) => CourseFinish(s, mode, cart, m);
  }

  lemma CourseStart(s: State, mode: Mode, cart: Cart)
    ensures OnCourse(s, mode, cart, Started(s, mode, cart))
  {
    PricedToZero(Started(s, mode, cart), |s.txns|);
  }

  lemma {:induction false} SoloOnCourse(s: State, mode: Mode, cart: Cart, ls: seq<Label>)
    requires s.locks == map[] && Solo(ls, |s.txns|, mode, cart) && Steps(s, ls).Some?
    ensures OnCourse(s, mode, cart, Steps(s, ls).value)
  {
    var n := |ls| - 1;
    if n == 0 {
      assert ls[..0] == [];
      CourseStart(s, mode, cart);
    } else {
      SoloOnCourse(s, mode, cart, ls[..n]);
      CourseStep(s, mode, cart, Steps(s, ls[..n]).value, ls[n]);
    }
  }

  /** Alone on the database, a checkout ends as the handler does, whichever of its schedules
      it took. */
  lemma CheckoutAlone(s: State, mode: Mode, cart: Cart, ls: seq<Label>)
    requires s.locks == map[] && Solo(ls, |s.txns|, mode, cart) && Steps(s, ls).Some?
    ensures |Steps(s, ls).value.txns| == |s.txns| + 1
    ensures var n := Steps(s, ls).value; var (outcome, rows) := Serial(mode, s.rows, cart);
        n.txns[|s.txns|].phase.Done? ==> EndsAs(s, n, outcome, rows, Committed(outcome, Priced(s.rows, cart.items)))
  {
    SoloOnCourse(s, mode, cart, ls);
  }

  /** The one step that an unfinished checkout on its own can take. */
  function Next(m: State, t: nat): Label
    requires t < |m.txns|
  {
    match m.txns[t].phase
    case Pricing(k) => if k < |m.txns[t].items| then Read(t) else Decide(t)
    case Reserving(k) => if k < |m.txns[t].lines| then Update(t) else Finish(t)
    case Done(_) => Finish(t)
  }

  lemma NextEnabled(s: State, mode: Mode, cart: Cart, m: State)
    requires OnCourse(s, mode, cart, m) && !m.txns[|s.txns|].phase.Done?
    ensures Enabled(m, Next(m, |s.txns|)) && Own(Next(m, |s.txns|), |s.txns|)
  {
    var t := |s.txns|;
    if m.txns[t].phase.Reserving? && m.txns[t].phase.next < |m.txns[t].lines| {
      MidwayStep(ToReserve(s, mode, cart), m, t, m.txns[t].phase.next);
    }
  }

  lemma CourseExtends(s: State, mode: Mode, cart: Cart, ls: seq<Label>, m: State)
    requires s.locks == map[] && Solo(ls, |s.txns|, mode, cart) && Steps(s, ls) == Some(m)
    requires OnCourse(s, mode, cart, m) && !m.txns[|s.txns|].phase.Done?
    ensures var l := Next(m, |s.txns|);
        && Solo(ls + [l], |s.txns|, mode, cart) && Enabled(m, l)
        && Steps(s, ls + [l]) == Some(Apply(m, l)) && OnCourse(s, mode, cart, Apply(m, l))
  {
    var l := Next(m, |s.txns|);
    NextEnabled(s, mode, cart, m);
    StepsExtend(s, ls, m, l);
    CourseStep(s, mode, cart, m, l);
  }

  /** Phases still ahead, and steps left in this one. */
  function Ahead(x: Txn): nat {
    match x.phase
    case Pricing(_) => 2
    case Reserving(_) => 1
    case Done(_) => 0
  }

  function Left(x: Txn): int {
    match x.phase
    case Pricing(k) => |x.items| - k
    case Reserving(k) => |x.lines| - k
    case Done(_) => 0
  }

  ghost predicate Advances(x: Txn, y: Txn) {
    Ahead(y) < Ahead(x) || (Ahead(y) == Ahead(x) && 0 <= Left(y) < Left(x))
  }

  lemma PricingAdvances(m: State, t: nat)
    requires t < |m.txns| && m.txns[t].phase.Pricing? && Enabled(m, Next(m, t))
    ensures t < |Apply(m, Next(m, t)).txns| && Advances(m.txns[t], Apply(m, Next(m, t)).txns[t])
  {
  }

  lemma ReservingAdvances(m: State, t: nat)
    requires t < |m.txns| && m.txns[t].phase.Reserving? && Enabled(m, Next(m, t))
    ensures t < |Apply(m, Next(m, t)).txns| && Advances(m.txns[t], Apply(m, Next(m, t)).txns[t])
  {
  }

  /** ... and there is a schedule that brings it to its end. */
  lemma CheckoutEnds(s: State, mode: Mode, cart: Cart) returns (ls: seq<Label>)
    requires s.locks == map[]
    ensures Solo(ls, |s.txns|, mode, cart) && Steps(s, ls).Some?
    ensures |Steps(s, ls).value.txns| == |s.txns| + 1 && Steps(s, ls).value.txns[|s.txns|].phase.Done?
  {
    ls := [Begin(mode, cart.items, cart.declines)];
    assert ls[..0] == [];
    CourseStart(s, mode, cart);
    ls := RunToEnd(s, mode, cart, ls, Started(s, mode, cart));
  }

  lemma {:induction false} RunToEnd(s: State, mode: Mode, cart: Cart, ls: seq<Label>, m: State) returns (whole: seq<Label>)
    requires s.locks == map[] && Solo(ls, |s.txns|, mode, cart) && Steps(s, ls) == Some(m) && OnCourse(s, mode, cart, m)
    ensures Solo(whole, |s.txns|, mode, cart) && Steps(s, whole).Some?
    ensures |Steps(s, whole).value.txns| == |s.txns| + 1 && Steps(s, whole).value.txns[|s.txns|].phase.Done?
    decreases if |m.txns| > |s.txns| then Ahead(m.txns[|s.txns|]) else 0, if |m.txns| > |s.txns| then Left(m.txns[|s.txns|]) else 0
  {
    if m.txns[|s.txns|].phase.Done? {
      whole := ls;
    } else {
      var l := Next(m, |s.txns|);
      CourseExtends(s, mode, cart, ls, m);
      if m.txns[|s.txns|].phase.Pricing? {
        PricingAdvances(m, |s.txns|);
      } else {
        ReservingAdvances(m, |s.txns|);
      }
      whole := RunToEnd(s, mode, cart, ls + [l], Apply(m, l));
    }
  }

  function OutcomesOf(txns: seq<Txn>): seq<Outcome> {
    if |txns| == 0 then []
    else
      var last := txns[|txns| - 1];
      OutcomesOf(txns[..|txns| - 1]) + [if last.phase.Done? then last.phase.outcome else Aborted]
  }

  function Join(blocks: seq<seq<Label>>): seq<Label> {
    if |blocks| == 0 then [] else Join(blocks[..|blocks| - 1]) + blocks[|blocks| - 1]
  }

  /** `ls` takes one checkout from its beginning to its end. */
  ghost predicate WholeCheckout(s: State, mode: Mode, cart: Cart, ls: seq<Label>) {
    && Solo(ls, |s.txns|, mode, cart) && Steps(s, ls).Some?
    && |Steps(s, ls).value.txns| > |s.txns| && Steps(s, ls).value.txns[|s.txns|].phase.Done?
  }

  /** One whole checkout after the other. */
  ghost predicate OneByOne(rows: map<string, int>, mode: Mode, carts: seq<Cart>, blocks: seq<seq<Label>>) {
    && |blocks| == |carts|
    && (|carts| > 0 ==>
          var n := |carts| - 1;
          && OneByOne(rows, mode, carts[..n], blocks[..n]) && Legal(rows, Join(blocks[..n]))
          && WholeCheckout(Exec(rows, Join(blocks[..n])), mode, carts[n], blocks[n]))
  }

  lemma {:induction false} StepsAppendRun(rows: map<string, int>, a: seq<Label>, b: seq<Label>)
    requires Legal(rows, a) && Steps(Exec(rows, a), b).Some?
    ensures Legal(rows, a + b) && Exec(rows, a + b) == Steps(Exec(rows, a), b).value
  {
    StepsAreRuns(rows, a);
    StepsThen(Opening(rows), a, Exec(rows, a), b);
    StepsAreRuns(rows, a + b);
  }

  lemma OutcomesAppend(s: State, n: State, outcome: Outcome)
    requires |n.txns| == |s.txns| + 1 && n.txns[..|s.txns|] == s.txns && n.txns[|s.txns|].phase == Done(outcome)
    ensures OutcomesOf(n.txns) == OutcomesOf(s.txns) + [outcome]
  {
  }

  /** Every serial schedule of the step system is a serial run of the handler. */
  lemma {:induction false} SerialSchedules(rows: map<string, int>, mode: Mode, carts: seq<Cart>, blocks: seq<seq<Label>>)
    requires OneByOne(rows, mode, carts, blocks)
    ensures Legal(rows, Join(blocks)) && Exec(rows, Join(blocks)).locks == map[]
    ensures (OutcomesOf(Exec(rows, Join(blocks)).txns), Exec(rows, Join(blocks)).rows) == SerialRun(mode, rows, carts)
  {
    if |carts| > 0 {
      var n := |carts| - 1;
      SerialSchedules(rows, mode, carts[..n], blocks[..n]);
      var s := Exec(rows, Join(blocks[..n]));
      CheckoutAlone(s, mode, carts[n], blocks[n]);
      StepsAppendRun(rows, Join(blocks[..n]), blocks[n]);
      OutcomesAppend(s, Steps(s, blocks[n]).value, Serial(mode, s.rows, carts[n]).0);
    }
  }
}
