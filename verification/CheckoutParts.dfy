/** The pieces of the checkout handler, each by a definition of its own. */
module CheckoutParts {
  import opened Sequences
  import opened Inventory
  import opened ReserveModes

  // ------------------------------------------------------------------- pricing

  function InStock(rows: map<string, int>): Item -> bool {
    (i: Item) => i.sku in rows
  }

  /** The line of a stocked item: what was asked for, and what was there. */
  function LineFor(rows: map<string, int>): Item -> Line {
    (i: Item) => Line(i.sku, i.qty, if i.sku in rows then rows[i.sku] else 0)
  }

  function ItemSku(i: Item): string { i.sku }

  lemma {:induction false} PricingIs(rows: map<string, int>, items: seq<Item>)
    ensures Priced(rows, items) == MapSeq(LineFor(rows), Select(InStock(rows), items, true))
    ensures Missing(rows, items) == MapSeq(ItemSku, Select(InStock(rows), items, false))
  {
    if |items| > 0 {
      PricingIs(rows, items[..|items| - 1]);
    }
  }

  lemma {:induction false} MissingMeans(rows: map<string, int>, items: seq<Item>)
    ensures Missing(rows, items) == [] <==> forall i :: 0 <= i < |items| ==> items[i].sku in rows
    ensures Missing(rows, items) == [] ==> Priced(rows, items) == MapSeq(LineFor(rows), items)
  {
    if |items| > 0 {
      var init := items[..|items| - 1];
      MissingMeans(rows, init);
      assert forall i :: 0 <= i < |init| ==> init[i] == items[i];
    }
  }

  // ---------------------------------------------------------- conditional updates

  /** What is left of `sku` after the first `n` lines, when the lines marked in `hit` took theirs. */
  function Remaining(rows: map<string, int>, lines: seq<Line>, hit: seq<bool>, sku: string, n: nat): int
    requires sku in rows && n <= |lines| == |hit|
  {
    if n == 0 then rows[sku]
    else Remaining(rows, lines, hit, sku, n - 1) - if hit[n - 1] && lines[n - 1].sku == sku then lines[n - 1].qty else 0
  }

  function Misses(lines: seq<Line>, hit: seq<bool>): seq<string>
    requires |lines| == |hit|
  {
    if |lines| == 0 then []
    else
      var n := |lines| - 1;
      Misses(lines[..n], hit[..n]) + if hit[n] then [] else [lines[n].sku]
  }

  /** A line takes its quantity exactly when that much is left when its turn comes; the others
      are reported, in order. */
  ghost predicate TakenInTurn(rows: map<string, int>, lines: seq<Line>, hit: seq<bool>, now: map<string, int>, short: seq<string>) {
    && |hit| == |lines| && now.Keys == rows.Keys
    && (forall i :: 0 <= i < |lines| ==>
          (hit[i] <==> lines[i].sku in rows && Remaining(rows, lines, hit, lines[i].sku, i) >= lines[i].qty))
    && (forall sku :: sku in rows ==> now[sku] == Remaining(rows, lines, hit, sku, |lines|))
    && short == Misses(lines, hit)
  }

  lemma {:induction false} RemainingPrefix(rows: map<string, int>, lines: seq<Line>, hit: seq<bool>, sku: string, m: nat, n: nat)
    requires sku in rows && n <= m <= |lines| == |hit|
    ensures Remaining(rows, lines[..m], hit[..m], sku, n) == Remaining(rows, lines, hit, sku, n)
  {
    if n > 0 {
      RemainingPrefix(rows, lines, hit, sku, m, n - 1);
    }
  }

  lemma {:induction false} TakesInTurn(rows: map<string, int>, lines: seq<Line>) returns (hit: seq<bool>)
    ensures TakenInTurn(rows, lines, hit, TakeAtomic(rows, lines).0, TakeAtomic(rows, lines).1)
  {
    if |lines| == 0 {
      hit := [];
    } else {
      var n := |lines| - 1;
      var early := TakesInTurn(rows, lines[..n]);
      var (now, short) := TakeAtomic(rows, lines[..n]);
      hit := early + [lines[n].sku in now && now[lines[n].sku] >= lines[n].qty];
      assert hit[..n] == early;
      forall sku, i | sku in rows && 0 <= i <= n ensures Remaining(rows, lines[..n], early, sku, i) == Remaining(rows, lines, hit, sku, i) {
        RemainingPrefix(rows, lines, hit, sku, n, i);
      }
      forall i | 0 <= i < |lines|
        ensures hit[i] <==> lines[i].sku in rows && Remaining(rows, lines, hit, lines[i].sku, i) >= lines[i].qty
      {
        assert i < n ==> lines[..n][i] == lines[i] && hit[i] == early[i];
      }
    }
  }

  // ------------------------------------------------------------ absolute updates

  predicate AsksTooMuch(l: Line) { l.seen < l.qty }

  function LineSku(l: Line): string { l.sku }

  lemma {:induction false} ShortIs(lines: seq<Line>)
    ensures ShortSeen(lines) == MapSeq(LineSku, Select(AsksTooMuch, lines, true))
  {
    if |lines| > 0 {
      ShortIs(lines[..|lines| - 1]);
    }
  }

  predicate LastOfSku(lines: seq<Line>, j: nat) {
    j < |lines| && forall i :: j < i < |lines| ==> lines[i].sku != lines[j].sku
  }

  /** The last line of a SKU leaves what it saw less what it takes; other rows stay. */
  ghost predicate WrittenBack(rows: map<string, int>, lines: seq<Line>, now: map<string, int>) {
    && now.Keys == rows.Keys
    && (forall j: nat :: LastOfSku(lines, j) && lines[j].sku in rows ==> now[lines[j].sku] == lines[j].seen - lines[j].qty)
    && (forall sku :: sku in rows && (forall i :: 0 <= i < |lines| ==> lines[i].sku != sku) ==> now[sku] == rows[sku])
  }

  lemma {:induction false} WritesBack(rows: map<string, int>, lines: seq<Line>)
    ensures WrittenBack(rows, lines, WriteSeen(rows, lines))
  {
    if |lines| > 0 {
      var n := |lines| - 1;
      var init := lines[..n];
      WritesBack(rows, init);
      var now := WriteSeen(rows, lines);
      forall j: nat | LastOfSku(lines, j) && lines[j].sku in rows ensures now[lines[j].sku] == lines[j].seen - lines[j].qty {
        if j < n {
          assert LastOfSku(init, j) && init[j] == lines[j];
        }
      }
      forall sku | sku in rows && (forall i :: 0 <= i < |lines| ==> lines[i].sku != sku) ensures now[sku] == rows[sku] {
        assert forall i :: 0 <= i < n ==> init[i] == lines[i];
      }
    }
  }
}
