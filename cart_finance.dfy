/**
 * The cart breakdown and the finance summary: a catalog-driven join of the
 * cart with one region's prices, sorted by title, and the totals, balance
 * and over-budget flag derived from it.
 */
module CartFinance {
  import opened Numbers
  import opened Wrappers
  import opened Api
  import opened Titles

  /** One purchasable line of the breakdown */
  datatype CartLine = CartLine(item: ShopItem, count: int, unitPrice: real, total: real)

  datatype FinanceSummary = FinanceSummary(
    totalItems: int,
    totalCost: real,
    balance: real,
    remainingBalance: real,
    overBudget: bool)

  /** The item is in the cart with a non-zero count and has a finite price in the region */
  predicate Purchasable(item: ShopItem, cart: map<int, int>, region: Region) {
    item.id in cart && cart[item.id] != 0 && PriceIn(item.prices, region).Finite?
  }

  /** The line for a purchasable item: its cart count, its regional price and their product */
  function LineOf(item: ShopItem, cart: map<int, int>, region: Region): CartLine
    requires Purchasable(item, cart, region)
  {
    var price := PriceIn(item.prices, region).value;
    CartLine(item, cart[item.id], price, price * cart[item.id] as real)
  }

  /** The lines the loop of `buildCartBreakdown` pushes, in catalog order: at most one per catalog item */
  function Lines(items: seq<ShopItem>, cart: map<int, int>, region: Region): (r: seq<CartLine>)
    ensures |r| <= |items|
    decreases |items|
  {
    if items == [] then []
    else
      var n := |items| - 1;
      var item := items[n];
      Lines(items[..n], cart, region) + if Purchasable(item, cart, region) then [LineOf(item, cart, region)] else []
  }

  /** Every line comes from a purchasable catalog item, with its count, price and total */
  lemma {:induction false} LinesSound(items: seq<ShopItem>, cart: map<int, int>, region: Region, l: CartLine)
    requires l in Lines(items, cart, region)
    ensures l.item in items && Purchasable(l.item, cart, region)
    ensures l.count == cart[l.item.id] && l.unitPrice == PriceIn(l.item.prices, region).value
    ensures l.total == l.unitPrice * l.count as real
    decreases |items|
  {
    var n := |items| - 1;
    if l !in Lines(items[..n], cart, region) {
      assert l == LineOf(items[n], cart, region);
    } else {
      LinesSound(items[..n], cart, region, l);
    }
  }

  /** Every purchasable catalog item has its line */
  lemma {:induction false} LinesComplete(items: seq<ShopItem>, cart: map<int, int>, region: Region, item: ShopItem)
    requires item in items && Purchasable(item, cart, region)
    ensures LineOf(item, cart, region) in Lines(items, cart, region)
    decreases |items|
  {
    var n := |items| - 1;
    if items[n] != item {
      assert item in items[..n];
      LinesComplete(items[..n], cart, region, item);
    }
  }

  /** A cart id that no catalog item carries produces no line */
  lemma UnknownIdsSkipped(items: seq<ShopItem>, cart: map<int, int>, region: Region, id: int)
    requires forall item :: item in items ==> item.id != id
    ensures forall l :: l in Lines(items, cart, region) ==> l.item.id != id
  {
    forall l | l in Lines(items, cart, region)
      ensures l.item.id != id
    {
      LinesSound(items, cart, region, l);
    }
  }

  /** An item whose regional price is not finite never appears, whatever its count */
  lemma UnpricedItemsSkipped(items: seq<ShopItem>, cart: map<int, int>, region: Region, item: ShopItem)
    requires !PriceIn(item.prices, region).Finite?
    ensures forall l :: l in Lines(items, cart, region) ==> l.item != item
  {
    forall l | l in Lines(items, cart, region)
      ensures l.item != item
    {
      LinesSound(items, cart, region, l);
    }
  }

  predicate SortedByTitle(lines: seq<CartLine>) {
    forall i, j :: 0 <= i < j < |lines| ==> TitleLe(lines[i].item.title, lines[j].item.title)
  }

  /** Inserts `x` before the first line whose title does not sort below it */
  function InsertByTitle(x: CartLine, lines: seq<CartLine>): (r: seq<CartLine>)
    requires SortedByTitle(lines)
    ensures SortedByTitle(r)
    ensures multiset(r) == multiset(lines) + multiset{x}
    decreases |lines|
  {
    if lines == [] then [x]
    else if TitleLe(x.item.title, lines[0].item.title) then
      forall j | 0 <= j < |lines|
        ensures TitleLe(x.item.title, lines[j].item.title)
      {
        if j > 0 {
          TitleLeTransitive(x.item.title, lines[0].item.title, lines[j].item.title);
        }
      }
      [x] + lines
    else
      var rest := InsertByTitle(x, lines[1..]);
      TitleLeTotal(x.item.title, lines[0].item.title);
      assert lines == [lines[0]] + lines[1..];
      forall e | e in rest
        ensures TitleLe(lines[0].item.title, e.item.title)
      {
        assert e in multiset(rest);
        if e != x {
          assert e in lines[1..];
        }
      }
      [lines[0]] + rest
  }

  /**
   * The `sort` of the breakdown by title. Like ECMAScript's `Array.prototype.sort`
   * it is stable: lines with equal titles keep their catalog order.
   */
  function SortByTitle(lines: seq<CartLine>): (r: seq<CartLine>)
    ensures SortedByTitle(r)
    ensures multiset(r) == multiset(lines)
    decreases |lines|
  {
    if lines == [] then []
    else
      assert lines == [lines[0]] + lines[1..];
      InsertByTitle(lines[0], SortByTitle(lines[1..]))
  }

  /** `buildCartBreakdown` */
  method BuildCartBreakdown(items: seq<ShopItem>, cartState: map<int, int>, region: Region)
    returns (breakdown: seq<CartLine>)
    ensures breakdown == SortByTitle(Lines(items, cartState, region))
    ensures SortedByTitle(breakdown)
    ensures multiset(breakdown) == multiset(Lines(items, cartState, region))
  {
    var lines: seq<CartLine> := [];
    for i := 0 to |items|
      invariant lines == Lines(items[..i], cartState, region)
    {
      assert items[..i + 1][..i] == items[..i];
      if Purchasable(items[i], cartState, region) {
        assert Lines(items[..i + 1], cartState, region) == lines + [LineOf(items[i], cartState, region)];
      } else {
        assert Lines(items[..i + 1], cartState, region) == lines + [] == lines;
      }
      var item := items[i];
      var count := if item.id in cartState then cartState[item.id] else 0;
      if count == 0 {
        continue;
      }
      var price := PriceIn(item.prices, region);
      if !IsFinite(price) {
        continue;
      }
      var total := price.value * count as real;
      assert CartLine(item, count, price.value, total) == LineOf(item, cartState, region);
      lines := lines + [CartLine(item, count, price.value, total)];
    }
    assert items[..|items|] == items;
    breakdown := SortByTitle(lines);
  }

  /** The accumulator of the `reduce` in `summarizeFinance` */
  datatype Tally = Tally(totalItems: int, totalCost: real)

  /**
   * The `reduce` over the breakdown, from the left. Lines of positive count
   * and non-negative total give at least one item per line and a cost that is
   * not negative.
   */
  function Totals(lines: seq<CartLine>): (r: Tally)
    ensures lines == [] ==> r == Tally(0, 0.0)
    ensures (forall l :: l in lines ==> l.count >= 1 && l.total >= 0.0) ==>
      r.totalItems >= |lines| && r.totalCost >= 0.0
    decreases |lines|
  {
    if lines == [] then Tally(0, 0.0)
    else
      var acc := Totals(lines[..|lines| - 1]);
      var line := lines[|lines| - 1];
      Tally(acc.totalItems + line.count, acc.totalCost + line.total)
  }

  lemma TotalsSnoc(lines: seq<CartLine>, x: CartLine)
    ensures Totals(lines + [x]).totalItems == Totals(lines).totalItems + x.count
    ensures Totals(lines + [x]).totalCost == Totals(lines).totalCost + x.total
  {
    assert (lines + [x])[..|lines|] == lines;
  }

  /** The totals of two stretches of lines add up */
  lemma {:induction false} TotalsAppend(a: seq<CartLine>, b: seq<CartLine>)
    ensures Totals(a + b).totalItems == Totals(a).totalItems + Totals(b).totalItems
    ensures Totals(a + b).totalCost == Totals(a).totalCost + Totals(b).totalCost
    decreases |b|
  {
    if b == [] {
      assert a + b == a;
    } else {
      var n := |b| - 1;
      assert (a + b)[..|a + b| - 1] == a + b[..n];
      TotalsAppend(a, b[..n]);
    }
  }

  /** A line in front adds its count and total */
  lemma TotalsCons(x: CartLine, lines: seq<CartLine>)
    ensures Totals([x] + lines).totalItems == x.count + Totals(lines).totalItems
    ensures Totals([x] + lines).totalCost == x.total + Totals(lines).totalCost
  {
    TotalsAppend([x], lines);
    TotalsSnoc([], x);
    assert [] + [x] == [x];
  }

  /** Inserting a line adds its count and total */
  lemma {:induction false} TotalsInsert(x: CartLine, lines: seq<CartLine>)
    requires SortedByTitle(lines)
    ensures Totals(InsertByTitle(x, lines)).totalItems == x.count + Totals(lines).totalItems
    ensures Totals(InsertByTitle(x, lines)).totalCost == x.total + Totals(lines).totalCost
    decreases |lines|
  {
    if lines == [] {
      TotalsCons(x, []);
      assert [x] + [] == [x];
    } else if TitleLe(x.item.title, lines[0].item.title) {
      TotalsCons(x, lines);
    } else {
      TotalsInsert(x, lines[1..]);
      TotalsCons(lines[0], InsertByTitle(x, lines[1..]));
      TotalsCons(lines[0], lines[1..]);
      assert lines == [lines[0]] + lines[1..];
    }
  }

  /** Sorting the breakdown does not change its totals */
  lemma {:induction false} TotalsSorted(lines: seq<CartLine>)
    ensures Totals(SortByTitle(lines)).totalItems == Totals(lines).totalItems
    ensures Totals(SortByTitle(lines)).totalCost == Totals(lines).totalCost
    decreases |lines|
  {
    if lines != [] {
      TotalsSorted(lines[1..]);
      TotalsInsert(lines[0], SortByTitle(lines[1..]));
      TotalsCons(lines[0], lines[1..]);
      assert lines == [lines[0]] + lines[1..];
    }
  }

  /** `summarizeFinance`; `None` stands for `null` or `undefined` */
  function SummarizeFinance(breakdown: seq<CartLine>, balanceInput: Option<Num>): (r: FinanceSummary)
    ensures r.totalItems == Totals(breakdown).totalItems && r.totalCost == Totals(breakdown).totalCost
    ensures balanceInput.Some? && balanceInput.value.Finite? ==> r.balance == balanceInput.value.value
    ensures !(balanceInput.Some? && balanceInput.value.Finite?) ==> r.balance == 0.0
    ensures r.remainingBalance == r.balance - r.totalCost
    ensures r.overBudget <==> r.balance > 0.0 && r.remainingBalance < 0.0
  {
    var tally := Totals(breakdown);
    var balance := if balanceInput.Some? && IsFinite(balanceInput.value) then balanceInput.value.value else 0.0;
    var remainingBalance := balance - tally.totalCost;
    FinanceSummary(
      tally.totalItems,
      tally.totalCost,
      balance,
      remainingBalance,
      if balance > 0.0 then tally.totalCost > balance else false)
  }

  /** An empty breakdown has no items and no cost */
  lemma EmptySummary(balanceInput: Option<Num>)
    ensures SummarizeFinance([], balanceInput).totalItems == 0
    ensures SummarizeFinance([], balanceInput).totalCost == 0.0
    ensures !SummarizeFinance([], balanceInput).overBudget
  {
  }

  /** A balance of zero or below never flags over-budget, and a cost equal to the balance does not either */
  lemma OverBudgetBoundaries(breakdown: seq<CartLine>, balanceInput: Option<Num>)
    ensures SummarizeFinance(breakdown, balanceInput).balance <= 0.0 ==> !SummarizeFinance(breakdown, balanceInput).overBudget
    ensures Totals(breakdown).totalCost == SummarizeFinance(breakdown, balanceInput).balance ==>
      !SummarizeFinance(breakdown, balanceInput).overBudget
  {
  }

  /** The summary of the sorted breakdown is the summary of the lines in catalog order */
  lemma SummaryIgnoresOrder(lines: seq<CartLine>, balanceInput: Option<Num>)
    ensures SummarizeFinance(SortByTitle(lines), balanceInput) == SummarizeFinance(lines, balanceInput)
  {
    TotalsSorted(lines);
  }

  /** The total cost of a breakdown is the sum of price times count over the purchasable catalog items */
  lemma {:induction false} TotalCostOfLines(items: seq<ShopItem>, cart: map<int, int>, region: Region)
    ensures Totals(Lines(items, cart, region)).totalCost == CatalogCost(items, cart, region)
    decreases |items|
  {
    if items != [] {
      var n := |items| - 1;
      TotalCostOfLines(items[..n], cart, region);
      LineCostStep(items, cart, region);
    }
  }

  /** The last catalog item adds its `ItemCost` to the cost of the lines */
  lemma LineCostStep(items: seq<ShopItem>, cart: map<int, int>, region: Region)
    requires items != []
    ensures Totals(Lines(items, cart, region)).totalCost ==
      Totals(Lines(items[..|items| - 1], cart, region)).totalCost + ItemCost(items[|items| - 1], cart, region)
  {
    var n := |items| - 1;
    var prefix := Lines(items[..n], cart, region);
    if Purchasable(items[n], cart, region) {
      var line := LineOf(items[n], cart, region);
      assert Lines(items, cart, region) == prefix + [line];
      assert line.total == ItemCost(items[n], cart, region);
      TotalsSnoc(prefix, line);
    } else {
      assert Lines(items, cart, region) == prefix + [] == prefix;
    }
  }

  /** What one catalog item adds to the cost of the cart */
  function ItemCost(item: ShopItem, cart: map<int, int>, region: Region): real {
    if Purchasable(item, cart, region)
    then PriceIn(item.prices, region).value * cart[item.id] as real
    else 0.0
  }

  /** Reference definition of the cost of the cart: price times count over purchasable catalog items */
  function CatalogCost(items: seq<ShopItem>, cart: map<int, int>, region: Region): real
    decreases |items|
  {
    if items == [] then 0.0
    else
      var n := |items| - 1;
      CatalogCost(items[..n], cart, region) + ItemCost(items[n], cart, region)
  }

  /** A line for a catalog item with the given title, count and price */
  function ExampleLine(id: int, title: string, count: int, price: real): CartLine {
    var p := Finite(price);
    CartLine(ShopItem(id, title, Prices(p, p, p, p, p, p)), count, price, price * count as real)
  }

  /** Two purchasable items come out in title order: "Apple" before "Banana" */
  lemma SortExample()
    ensures SortByTitle([ExampleLine(1, "Banana", 1, 3.0), ExampleLine(2, "Apple", 1, 2.0)]) ==
      [ExampleLine(2, "Apple", 1, 2.0), ExampleLine(1, "Banana", 1, 3.0)]
  {
    var banana := ExampleLine(1, "Banana", 1, 3.0);
    var apple := ExampleLine(2, "Apple", 1, 2.0);
    assert SortByTitle([apple]) == [apple];
    assert [banana, apple][1..] == [apple];
    assert !TitleLe(banana.item.title, apple.item.title);
  }

  /** Counts 2 and 1 with totals 20 and 5 against a balance of 30 leave 5, not over budget */
  lemma SummaryExample()
    ensures SummarizeFinance([ExampleLine(1, "A", 2, 10.0), ExampleLine(2, "B", 1, 5.0)], Some(Finite(30.0))) ==
      FinanceSummary(3, 25.0, 30.0, 5.0, false)
  {
    var a := ExampleLine(1, "A", 2, 10.0);
    var b := ExampleLine(2, "B", 1, 5.0);
    TotalsSnoc([], a);
    assert [] + [a] == [a];
    TotalsSnoc([a], b);
    assert [a] + [b] == [a, b];
  }

  /** The over-budget rule at its edges: cost equal to the balance, just above it, and a zero balance */
  lemma OverBudgetExamples(x: CartLine, y: CartLine, z: CartLine)
    requires x.total == 100.0 && y.total == 100.01 && z.total == 50.0
    ensures !SummarizeFinance([x], Some(Finite(100.0))).overBudget
    ensures SummarizeFinance([y], Some(Finite(100.0))).overBudget
    ensures !SummarizeFinance([z], Some(Finite(0.0))).overBudget
  {
    assert Totals([x]) == Tally(x.count, 100.0);
    assert Totals([y]) == Tally(y.count, 100.01);
    assert Totals([z]) == Tally(z.count, 50.0);
  }
}
