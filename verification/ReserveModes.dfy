/** The two reservation modes agree in serial runs exactly for carts that take no SKU twice. */
module ReserveModes {
  import opened Inventory

  datatype Cart = Cart(items: seq<Item>, declines: bool)

  // ----------------------------------------------------- one checkout on its own

  function Priced(rows: map<string, int>, items: seq<Item>): seq<Line> {
    if |items| == 0 then []
    else
      var last := items[|items| - 1];
      var rest := Priced(rows, items[..|items| - 1]);
      if last.sku in rows then rest + [Line(last.sku, last.qty, rows[last.sku])] else rest
  }

  function Missing(rows: map<string, int>, items: seq<Item>): seq<string> {
    if |items| == 0 then []
    else
      var last := items[|items| - 1];
      var rest := Missing(rows, items[..|items| - 1]);
      if last.sku in rows then rest else rest + [last.sku]
  }

  /** Conditional UPDATEs, line by line: the rows after them and the SKUs that came up short. */
  function TakeAtomic(rows: map<string, int>, lines: seq<Line>): (map<string, int>, seq<string>) {
    if |lines| == 0 then (rows, [])
    else
      var last := lines[|lines| - 1];
      var (now, short) := TakeAtomic(rows, lines[..|lines| - 1]);
      if last.sku in now && now[last.sku] >= last.qty then (now[last.sku := now[last.sku] - last.qty], short)
      else (now, short + [last.sku])
  }

  /** Absolute UPDATEs from what pricing saw. */
  function WriteSeen(rows: map<string, int>, lines: seq<Line>): map<string, int> {
    if |lines| == 0 then rows
    else
      var last := lines[|lines| - 1];
      var now := WriteSeen(rows, lines[..|lines| - 1]);
      if last.sku in now then now[last.sku := last.seen - last.qty] else now
  }

  function Reserve(mode: Mode, rows: map<string, int>, lines: seq<Line>): (map<string, int>, seq<string>) {
    match mode
    case Atomic => TakeAtomic(rows, lines)
    case ReadThenWrite => if ShortSeen(lines) != [] then (rows, ShortSeen(lines)) else (WriteSeen(rows, lines), [])
  }

  /** A whole checkout with nobody else around. */
  function Serial(mode: Mode, rows: map<string, int>, cart: Cart): (Outcome, map<string, int>) {
    if Missing(rows, cart.items) != [] then (UnknownSku(Missing(rows, cart.items)), rows)
    else
      var (now, short) := Reserve(mode, rows, Priced(rows, cart.items));
      if short != [] then (OutOfStock(short), rows)
      else (if cart.declines then Declined else Confirmed, now)
  }

  function SerialRun(mode: Mode, rows: map<string, int>, carts: seq<Cart>): (seq<Outcome>, map<string, int>) {
    if |carts| == 0 then ([], rows)
    else
      var (outcomes, now) := SerialRun(mode, rows, carts[..|carts| - 1]);
      var (outcome, next) := Serial(mode, now, carts[|carts| - 1]);
      (outcomes + [outcome], next)
  }

  ghost predicate Stocked(rows: map<string, int>) {
    forall sku :: sku in rows ==> rows[sku] >= 0
  }

  /** No SKU is asked for again after a line that takes some of it. */
  ghost predicate Tidy(items: seq<Item>) {
    forall i, j :: 0 <= i < j < |items| && items[i].sku == items[j].sku ==> items[i].qty == 0
  }

  lemma {:induction false} PricedAt(rows: map<string, int>, items: seq<Item>)
    requires Missing(rows, items) == []
    ensures |Priced(rows, items)| == |items|
    ensures forall i :: 0 <= i < |items| ==>
        && items[i].sku in rows
        && Priced(rows, items)[i] == Line(items[i].sku, items[i].qty, rows[items[i].sku])
  {
    if |items| > 0 {
      PricedAt(rows, items[..|items| - 1]);
    }
  }

  /** Lines as pricing makes them, with the cart's tidiness. */
  ghost predicate TidyLines(rows: map<string, int>, lines: seq<Line>) {
    && (forall i :: 0 <= i < |lines| ==> lines[i].sku in rows && lines[i].seen == rows[lines[i].sku])
    && (forall i, j :: 0 <= i < j < |lines| && lines[i].sku == lines[j].sku ==> lines[i].qty == 0)
  }

  /** A row none of whose lines takes anything keeps its value. */
  ghost predicate Untouched(rows: map<string, int>, now: map<string, int>, lines: seq<Line>) {
    && now.Keys == rows.Keys
    && forall sku :: sku in rows && (forall i :: 0 <= i < |lines| && lines[i].sku == sku ==> lines[i].qty == 0) ==>
        now[sku] == rows[sku]
  }

  lemma {:induction false} TakeMatchesWrite(rows: map<string, int>, lines: seq<Line>)
    requires Stocked(rows) && TidyLines(rows, lines)
    ensures TakeAtomic(rows, lines).1 == ShortSeen(lines)
    ensures Untouched(rows, TakeAtomic(rows, lines).0, lines)
    ensures ShortSeen(lines) == [] ==> TakeAtomic(rows, lines).0 == WriteSeen(rows, lines)
  {
    if |lines| > 0 {
      var n := |lines| - 1;
      var init := lines[..n];
      TakeMatchesWrite(rows, init);
      var now := TakeAtomic(rows, init).0;
      assert forall i :: 0 <= i < n && lines[i].sku == lines[n].sku ==> lines[i].qty == 0;
      assert now[lines[n].sku] == rows[lines[n].sku];
      UntouchedStep(rows, now, lines);
    }
  }

  lemma UntouchedStep(rows: map<string, int>, now: map<string, int>, lines: seq<Line>)
    requires |lines| > 0 && Untouched(rows, now, lines[..|lines| - 1])
    requires lines[|lines| - 1].sku in rows
    ensures Untouched(rows, now, lines)
    ensures var last := lines[|lines| - 1]; Untouched(rows, now[last.sku := now[last.sku] - last.qty], lines)
  {
    var n := |lines| - 1;
    forall sku | sku in rows && (forall i :: 0 <= i < |lines| && lines[i].sku == sku ==> lines[i].qty == 0)
      ensures now[sku] == rows[sku] && (sku == lines[n].sku ==> lines[n].qty == 0)
    {
      forall i | 0 <= i < n && lines[..n][i].sku == sku ensures lines[..n][i].qty == 0 {
        assert lines[i].sku == sku;
      }
    }
  }

  lemma TidyAgrees(rows: map<string, int>, cart: Cart)
    requires Stocked(rows) && Tidy(cart.items)
    ensures Serial(Atomic, rows, cart) == Serial(ReadThenWrite, rows, cart)
  {
    if Missing(rows, cart.items) == [] {
      PricedAt(rows, cart.items);
      TakeMatchesWrite(rows, Priced(rows, cart.items));
    }
  }

  // ------------------------------------------------------- untidy carts disagree

  lemma {:induction false} EnoughTakes(rows: map<string, int>, lines: seq<Line>, sku: string)
    requires forall i :: 0 <= i < |lines| ==> lines[i].sku in rows
    requires forall k :: k in rows ==> rows[k] >= Qty(lines, k)
    requires sku in rows
    ensures TakeAtomic(rows, lines).1 == []
    ensures TakeAtomic(rows, lines).0.Keys == rows.Keys
    ensures TakeAtomic(rows, lines).0[sku] == rows[sku] - Qty(lines, sku)
  {
    if |lines| > 0 {
      var init := lines[..|lines| - 1];
      EnoughTakes(rows, init, sku);
      EnoughTakes(rows, init, lines[|lines| - 1].sku);
    }
  }

  /** The last line of a SKU decides what an absolute write leaves. */
  lemma {:induction false} LastWriteWins(rows: map<string, int>, lines: seq<Line>, j: nat)
    requires forall i :: 0 <= i < |lines| ==> lines[i].sku in rows
    requires j < |lines| && forall i :: j < i < |lines| ==> lines[i].sku != lines[j].sku
    ensures WriteSeen(rows, lines).Keys == rows.Keys
    ensures WriteSeen(rows, lines)[lines[j].sku] == lines[j].seen - lines[j].qty
  {
    var n := |lines| - 1;
    WriteSeenKeys(rows, lines[..n]);
    if j < n {
      LastWriteWins(rows, lines[..n], j);
    }
  }

  lemma {:induction false} WriteSeenKeys(rows: map<string, int>, lines: seq<Line>)
    ensures WriteSeen(rows, lines).Keys == rows.Keys
  {
    if |lines| > 0 {
      WriteSeenKeys(rows, lines[..|lines| - 1]);
    }
  }

  lemma {:induction false} NeverShort(lines: seq<Line>)
    requires forall i :: 0 <= i < |lines| ==> lines[i].seen >= lines[i].qty
    ensures ShortSeen(lines) == []
  {
    if |lines| > 0 {
      NeverShort(lines[..|lines| - 1]);
    }
  }

  lemma {:induction false} QtyCounts(lines: seq<Line>, i: nat, j: nat)
    requires i < j < |lines| && lines[i].sku == lines[j].sku
    ensures Qty(lines, lines[j].sku) >= lines[i].qty + lines[j].qty
  {
    var n := |lines| - 1;
    if j < n {
      QtyCounts(lines[..n], i, j);
    } else {
      QtyCovers(lines[..n], i);
    }
  }

  lemma {:induction false} QtyCovers(lines: seq<Line>, i: nat)
    requires i < |lines|
    ensures Qty(lines, lines[i].sku) >= lines[i].qty
  {
    if i < |lines| - 1 {
      QtyCovers(lines[..|lines| - 1], i);
    }
  }

  function TotalQty(items: seq<Item>): nat {
    if |items| == 0 then 0 else TotalQty(items[..|items| - 1]) + items[|items| - 1].qty
  }

  /** The same stock `n` of everything in the cart. */
  function Shelf(items: seq<Item>, n: nat): map<string, int> {
    if |items| == 0 then map[] else Shelf(items[..|items| - 1], n)[items[|items| - 1].sku := n]
  }

  lemma {:induction false} ShelfHolds(items: seq<Item>, n: nat)
    ensures forall i :: 0 <= i < |items| ==> items[i].sku in Shelf(items, n)
    ensures forall sku :: sku in Shelf(items, n) ==> Shelf(items, n)[sku] == n
  {
    if |items| > 0 {
      ShelfHolds(items[..|items| - 1], n);
    }
  }

  lemma {:induction false} TotalCovers(rows: map<string, int>, items: seq<Item>, sku: string)
    ensures Qty(Priced(rows, items), sku) <= TotalQty(items)
  {
    if |items| > 0 {
      TotalCovers(rows, items[..|items| - 1], sku);
      var last := items[|items| - 1];
      if last.sku in rows {
        QtyAppend(Priced(rows, items[..|items| - 1]), Line(last.sku, last.qty, rows[last.sku]), sku);
      }
    }
  }

  lemma {:induction false} NoneMissing(rows: map<string, int>, items: seq<Item>)
    requires forall i :: 0 <= i < |items| ==> items[i].sku in rows
    ensures Missing(rows, items) == []
  {
    if |items| > 0 {
      NoneMissing(rows, items[..|items| - 1]);
    }
  }

  lemma LastOf(items: seq<Item>, j: nat) returns (k: nat)
    requires j < |items|
    ensures j <= k < |items| && items[k].sku == items[j].sku
    ensures forall i :: k < i < |items| ==> items[i].sku != items[j].sku
  {
    k := |items| - 1;
    while items[k].sku != items[j].sku
      invariant j <= k < |items|
      invariant forall i :: k < i < |items| ==> items[i].sku != items[j].sku
      decreases k
    {
      k := k - 1;
    }
  }

  /** With stock for everything, each line of a repeated SKU is subtracted by ATOMIC and only
      the last one by READ_THEN_WRITE. */
  lemma {:induction false} UntidyDiffers(items: seq<Item>, declines: bool, i: nat, j: nat)
    requires i < j < |items| && items[i].sku == items[j].sku && items[i].qty > 0
    ensures var rows := Shelf(items, TotalQty(items));
        && Stocked(rows)
        && Serial(Atomic, rows, Cart(items, declines)) != Serial(ReadThenWrite, rows, Cart(items, declines))
  {
    var rows := Shelf(items, TotalQty(items));
    ShelfHolds(items, TotalQty(items));
    NoneMissing(rows, items);
    PricedAt(rows, items);
    var lines := Priced(rows, items);
    var k := LastOf(items, j);
    var sku := items[k].sku;
    forall s | s in rows ensures rows[s] >= Qty(lines, s) {
      TotalCovers(rows, items, s);
    }
    forall n | 0 <= n < |lines| ensures lines[n].seen >= lines[n].qty {
      QtyCovers(lines, n);
    }
    EnoughTakes(rows, lines, sku);
    NeverShort(lines);
    LastWriteWins(rows, lines, k);
    QtyCounts(lines, i, k);
  }

  ghost predicate ModesAgree(cart: Cart) {
    forall rows :: Stocked(rows) ==> Serial(Atomic, rows, cart) == Serial(ReadThenWrite, rows, cart)
  }

  /** READ_THEN_WRITE equals ATOMIC in serial use, for every stock, exactly for tidy carts
      (distinct SKUs are tidy). */
  lemma ModesAgreeExactly(cart: Cart)
    ensures ModesAgree(cart) <==> Tidy(cart.items)
  {
    if Tidy(cart.items) {
      forall rows | Stocked(rows) ensures Serial(Atomic, rows, cart) == Serial(ReadThenWrite, rows, cart) {
        TidyAgrees(rows, cart);
      }
    } else {
      var i, j :| 0 <= i < j < |cart.items| && cart.items[i].sku == cart.items[j].sku && cart.items[i].qty != 0;
      UntidyDiffers(cart.items, cart.declines, i, j);
    }
  }

  lemma {:induction false} TakeStocked(rows: map<string, int>, lines: seq<Line>)
    requires Stocked(rows)
    ensures Stocked(TakeAtomic(rows, lines).0)
  {
    if |lines| > 0 {
      TakeStocked(rows, lines[..|lines| - 1]);
    }
  }

  /** Any serial run of tidy carts: same outcomes, same shortages, same stock. */
  lemma {:induction false} SerialRunsAgree(rows: map<string, int>, carts: seq<Cart>)
    requires Stocked(rows) && forall i :: 0 <= i < |carts| ==> Tidy(carts[i].items)
    ensures SerialRun(Atomic, rows, carts) == SerialRun(ReadThenWrite, rows, carts)
    ensures Stocked(SerialRun(Atomic, rows, carts).1)
  {
    if |carts| > 0 {
      var init, last := carts[..|carts| - 1], carts[|carts| - 1];
      SerialRunsAgree(rows, init);
      var now := SerialRun(Atomic, rows, init).1;
      TidyAgrees(now, last);
      TakeStocked(now, Priced(now, last.items));
    }
  }
}
