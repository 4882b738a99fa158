/** What the checkout loop does to the products, line by line, as a function
    of the products it starts from and the cart lines it visits. Each line
    that passes writes its stock decrement at once; the first line that fails
    stops the loop, and nothing undoes the decrements already written. */
module Checkout {
  import opened Util
  import opened Database
  import opened Cart

  datatype LineError = ProductMissing(pid: string) | OverStock(title: string)

  /** The loop's state: the products as stored, the items and total built so
      far, and the error that stopped it, if any. */
  datatype Run = Run(products: seq<Product>, items: seq<OrderItem>, total: int,
                     stop: Option<LineError>)

  function StockPatch(stock: int): ProductPatch {
    ProductPatch(None, None, Some(stock), None, None, None)
  }

  /** One pass of the loop body for one cart line: look the product up by
      id, refuse a quantity above its stock, otherwise write the lowered
      stock into that product and add the item. */
  function StepLine(r: Run, line: CartLine): Run {
    if r.stop.Some? then r
    else match FindProductIndex(r.products, line.pid)
      case None => r.(stop := Some(ProductMissing(line.pid)))
      case Some(i) =>
        var p := r.products[i];
        if line.item.qty > p.stock then r.(stop := Some(OverStock(p.title)))
        else Run(r.products[i := p.(stock := p.stock - line.item.qty)],
                 r.items + [OrderItem(line.pid, p.title, p.price, line.item.qty)],
                 r.total + line.item.qty * p.price, None)
  }

  /** The loop body's `updateProduct(pid, {stock})` is the write of
      `StepLine`: it patches the same first product with that id. */
  lemma StockPatchWrites(products: seq<Product>, pid: string, stock: int)
    requires FindProductIndex(products, pid).Some?
    ensures var i := FindProductIndex(products, pid).value;
      PatchProducts(products, pid, StockPatch(stock)) ==
        Some(products[i := products[i].(stock := stock)])
  {
  }

  /** The loop over `lines`, in cart order. */
  function RunLines(products: seq<Product>, lines: seq<CartLine>): Run
    decreases |lines|
  {
    if lines == [] then Run(products, [], 0, None)
    else StepLine(RunLines(products, lines[..|lines| - 1]), lines[|lines| - 1])
  }

  /** A line that passes found its product, had enough stock, and wrote the
      decrement and the item. */
  lemma StepPassed(r: Run, line: CartLine)
    requires StepLine(r, line).stop.None?
    ensures r.stop.None? && FindProductIndex(r.products, line.pid).Some?
    ensures var i := FindProductIndex(r.products, line.pid).value;
      var p := r.products[i];
      line.item.qty <= p.stock &&
      StepLine(r, line) == Run(r.products[i := p.(stock := p.stock - line.item.qty)],
                               r.items + [OrderItem(line.pid, p.title, p.price, line.item.qty)],
                               r.total + line.item.qty * p.price, None)
  {
  }

  /** A line that fails, or comes after a failure, changes no product, item
      or total. */
  lemma StepFailed(r: Run, line: CartLine)
    requires StepLine(r, line).stop.Some?
    ensures StepLine(r, line).products == r.products
    ensures StepLine(r, line).items == r.items && StepLine(r, line).total == r.total
  {
  }

  /** Once a line has failed, the later lines change nothing: the result of
      the whole loop is the state at the failure. */
  lemma {:induction false} RunStopSticky(products: seq<Product>, lines: seq<CartLine>, i: nat)
    requires i <= |lines|
    requires RunLines(products, lines[..i]).stop.Some?
    ensures RunLines(products, lines) == RunLines(products, lines[..i])
    decreases |lines|
  {
    if i < |lines| {
      assert lines[..|lines| - 1][..i] == lines[..i];
      RunStopSticky(products, lines[..|lines| - 1], i);
    } else {
      assert lines[..i] == lines;
    }
  }

  /** `reduce` over the order items: the sum of price times quantity. */
  function ItemsTotal(items: seq<OrderItem>): int {
    if items == [] then 0
    else ItemsTotal(items[..|items| - 1]) + items[|items| - 1].qty * items[|items| - 1].price
  }

  /** The accumulated total is the total of the accumulated items, each at
      the price the product had when its line was visited. */
  lemma {:induction false} RunTotalIsItemsTotal(products: seq<Product>, lines: seq<CartLine>)
    ensures RunLines(products, lines).total == ItemsTotal(RunLines(products, lines).items)
    decreases |lines|
  {
    if lines != [] {
      var line := lines[|lines| - 1];
      var prev := RunLines(products, lines[..|lines| - 1]);
      RunTotalIsItemsTotal(products, lines[..|lines| - 1]);
      var r := RunLines(products, lines);
      assert r == StepLine(prev, line);
      if r.stop.None? {
        StepPassed(prev, line);
        assert r.items[..|r.items| - 1] == prev.items;
      } else {
        StepFailed(prev, line);
      }
    }
  }

  /** The items follow the cart: item k is line k's product id and quantity,
      for every line before the one that failed; a loop that did not fail
      has one item per line. */
  lemma {:induction false} RunItemsFollowCart(products: seq<Product>, lines: seq<CartLine>)
    ensures |RunLines(products, lines).items| <= |lines|
    ensures RunLines(products, lines).stop.None? ==> |RunLines(products, lines).items| == |lines|
    ensures forall k :: 0 <= k < |RunLines(products, lines).items| ==>
      RunLines(products, lines).items[k].id == lines[k].pid &&
      RunLines(products, lines).items[k].qty == lines[k].item.qty
    decreases |lines|
  {
    if lines != [] {
      var init := lines[..|lines| - 1];
      RunItemsFollowCart(products, init);
      ItemsStep(lines, RunLines(products, init), RunLines(products, lines));
    }
  }

  /** The inductive step of `RunItemsFollowCart`: a passing line appends its
      own item, a failing one appends nothing. */
  lemma ItemsStep(lines: seq<CartLine>, prev: Run, next: Run)
    requires lines != [] && next == StepLine(prev, lines[|lines| - 1])
    requires |prev.items| <= |lines| - 1
    requires prev.stop.None? ==> |prev.items| == |lines| - 1
    requires forall k :: 0 <= k < |prev.items| ==>
      prev.items[k].id == lines[k].pid && prev.items[k].qty == lines[k].item.qty
    ensures |next.items| <= |lines|
    ensures next.stop.None? ==> |next.items| == |lines|
    ensures forall k :: 0 <= k < |next.items| ==>
      next.items[k].id == lines[k].pid && next.items[k].qty == lines[k].item.qty
  {
    var line := lines[|lines| - 1];
    if next.stop.None? {
      StepPassed(prev, line);
    } else {
      StepFailed(prev, line);
    }
  }

  /** Products that agree on their ids. */
  predicate SameIds(a: seq<Product>, b: seq<Product>) {
    |a| == |b| && forall k :: 0 <= k < |a| ==> a[k].id == b[k].id
  }

  lemma {:induction false} SameIdsSameIndex(a: seq<Product>, b: seq<Product>, id: string)
    requires SameIds(a, b)
    ensures FindProductIndex(a, id) == FindProductIndex(b, id)
    decreases |a|
  {
    if a != [] {
      assert SameIds(a[1..], b[1..]);
      SameIdsSameIndex(a[1..], b[1..], id);
    }
  }

  /** The loop changes nothing but stock: the same products in the same
      order, with the same ids, titles, prices and every other field. */
  lemma {:induction false} RunChangesOnlyStock(products: seq<Product>, lines: seq<CartLine>)
    ensures var ps := RunLines(products, lines).products;
      |ps| == |products| &&
      forall k :: 0 <= k < |ps| ==> ps[k] == products[k].(stock := ps[k].stock)
    decreases |lines|
  {
    if lines != [] {
      RunChangesOnlyStock(products, lines[..|lines| - 1]);
    }
  }

  /** A line only passes when its quantity does not exceed the stock, so
      stock that starts non-negative stays non-negative. */
  lemma {:induction false} RunKeepsStockNonNegative(products: seq<Product>, lines: seq<CartLine>)
    requires forall k :: 0 <= k < |products| ==> products[k].stock >= 0
    ensures forall k :: 0 <= k < |RunLines(products, lines).products| ==>
      RunLines(products, lines).products[k].stock >= 0
    decreases |lines|
  {
    if lines != [] {
      var prev := RunLines(products, lines[..|lines| - 1]);
      var line := lines[|lines| - 1];
      RunKeepsStockNonNegative(products, lines[..|lines| - 1]);
      if StepLine(prev, line).stop.None? {
        StepPassed(prev, line);
        var i := FindProductIndex(prev.products, line.pid).value;
        var ps := prev.products[i := prev.products[i].(stock := prev.products[i].stock - line.item.qty)];
        assert RunLines(products, lines).products == ps;
        forall k | 0 <= k < |ps|
          ensures ps[k].stock >= 0
        {
          if k != i {
            assert ps[k] == prev.products[k];
          } else {
            assert line.item.qty <= prev.products[i].stock;
          }
        }
      } else {
        StepFailed(prev, line);
        assert RunLines(products, lines) == StepLine(prev, line);
      }
    }
  }

  /** The quantity the lines ask of product `id`. */
  function QtyOf(lines: seq<CartLine>, id: string): int {
    SumOf(lines, (l: CartLine) => if l.pid == id then l.item.qty else 0)
  }

  /** What the lines take from the product at position `j`: lookups by id
      find the first product with that id, so later duplicates give nothing. */
  function Demand(products: seq<Product>, lines: seq<CartLine>, j: nat): int
    requires j < |products|
  {
    if FindProductIndex(products, products[j].id) == Some(j) then QtyOf(lines, products[j].id) else 0
  }

  /** A loop that went through every line has lowered each product's stock
      by exactly the quantity the cart asked of it. */
  lemma {:induction false} RunStockConservation(products: seq<Product>, lines: seq<CartLine>)
    requires RunLines(products, lines).stop.None?
    ensures |RunLines(products, lines).products| == |products|
    ensures forall j :: 0 <= j < |products| ==>
      RunLines(products, lines).products[j].stock == products[j].stock - Demand(products, lines, j)
    decreases |lines|
  {
    if lines == [] {
      forall j | 0 <= j < |products|
        ensures Demand(products, lines, j) == 0
      {
      }
    } else {
      var init := lines[..|lines| - 1];
      var prev := RunLines(products, init);
      RunStockConservation(products, init);
      RunChangesOnlyStock(products, init);
      assert SameIds(prev.products, products);
      ConservationStep(products, lines, prev, RunLines(products, lines));
    }
  }

  /** The inductive step of `RunStockConservation`: one more passing line
      lowers only the product its lookup finds, by its quantity. */
  lemma ConservationStep(products: seq<Product>, lines: seq<CartLine>, prev: Run, next: Run)
    requires lines != [] && next == StepLine(prev, lines[|lines| - 1]) && next.stop.None?
    requires SameIds(prev.products, products)
    requires forall j :: 0 <= j < |products| ==>
      prev.products[j].stock == products[j].stock - Demand(products, lines[..|lines| - 1], j)
    ensures |next.products| == |products|
    ensures forall j :: 0 <= j < |products| ==>
      next.products[j].stock == products[j].stock - Demand(products, lines, j)
  {
    var line := lines[|lines| - 1];
    StepPassed(prev, line);
    var i := FindProductIndex(prev.products, line.pid).value;
    SameIdsSameIndex(prev.products, products, line.pid);
    forall j | 0 <= j < |products|
      ensures next.products[j].stock == products[j].stock - Demand(products, lines, j)
    {
      StockStep(products, lines, prev.products, i, j);
    }
  }

  /** The stock of product `j` after one more passing line, given the stock
      before it. */
  lemma StockStep(products: seq<Product>, lines: seq<CartLine>, before: seq<Product>, i: nat, j: nat)
    requires lines != [] && |before| == |products| && i < |products| && j < |products|
    requires FindProductIndex(products, lines[|lines| - 1].pid) == Some(i)
    requires before[j].stock == products[j].stock - Demand(products, lines[..|lines| - 1], j)
    ensures var line := lines[|lines| - 1];
      before[i := before[i].(stock := before[i].stock - line.item.qty)][j].stock ==
        products[j].stock - Demand(products, lines, j)
  {
    DemandStep(products, lines, j);
  }

  /** Adding a line adds its quantity to the demand on the product the
      lookup finds for it. */
  lemma DemandStep(products: seq<Product>, lines: seq<CartLine>, j: nat)
    requires lines != [] && j < |products|
    ensures var line := lines[|lines| - 1];
      Demand(products, lines, j) == Demand(products, lines[..|lines| - 1], j) +
        (if FindProductIndex(products, line.pid) == Some(j) then line.item.qty else 0)
  {
    var line := lines[|lines| - 1];
    var id := products[j].id;
    assert QtyOf(lines, id) == QtyOf(lines[..|lines| - 1], id) + (if line.pid == id then line.item.qty else 0);
  }

  /** The loop over the first `k` lines passed, and left the products and
      items that the whole loop ends with. */
  predicate EndsAsPrefix(products: seq<Product>, lines: seq<CartLine>, k: int) {
    0 <= k < |lines| && RunLines(products, lines[..k]).stop.None? &&
    RunLines(products, lines).products == RunLines(products, lines[..k]).products &&
    RunLines(products, lines).items == RunLines(products, lines[..k]).items
  }

  /** A failed loop leaves the decrements of every line before the failing
      one in place: the products are exactly those of the loop over that
      prefix, which passed. */
  lemma {:induction false} FailedRunKeepsEarlierDecrements(products: seq<Product>, lines: seq<CartLine>)
    requires RunLines(products, lines).stop.Some?
    ensures exists k :: EndsAsPrefix(products, lines, k)
    decreases |lines|
  {
    var init := lines[..|lines| - 1];
    var prev := RunLines(products, init);
    StepFailed(prev, lines[|lines| - 1]);
    if prev.stop.Some? {
      FailedRunKeepsEarlierDecrements(products, init);
      var k :| EndsAsPrefix(products, init, k);
      assert init[..k] == lines[..k];
      assert EndsAsPrefix(products, lines, k);
    } else {
      assert EndsAsPrefix(products, lines, |lines| - 1);
    }
  }

  // ===== Worked examples =====

  function SampleProduct(id: string, price: int, stock: int): Product {
    Product(id, "t" + id, price, stock, "merch", "", false, "2026-01-01T00:00:00.000Z")
  }

  function SampleLine(id: string, qty: int): CartLine {
    CartLine(id, CartItem(qty, 0, "t" + id))
  }

  /** Checkout is not all-or-nothing: with two units of `p1` in the cart
      followed by three of `p2`, which has one in stock, the loop fails on
      `p2` after having lowered the stock of `p1` from 5 to 3. */
  lemma CheckoutIsNotAtomic()
    ensures var before := [SampleProduct("p1", 100, 5), SampleProduct("p2", 200, 1)];
      var r := RunLines(before, [SampleLine("p1", 2), SampleLine("p2", 3)]);
      r.stop == Some(OverStock("tp2")) &&
      r.products == [SampleProduct("p1", 100, 3), SampleProduct("p2", 200, 1)]
  {
    var before := [SampleProduct("p1", 100, 5), SampleProduct("p2", 200, 1)];
    var after1 := [SampleProduct("p1", 100, 3), SampleProduct("p2", 200, 1)];
    var lines := [SampleLine("p1", 2), SampleLine("p2", 3)];
    assert lines[..1] == [SampleLine("p1", 2)];
    assert lines[..1][..0] == [];
    assert FindProductIndex(before, "p1") == Some(0);
    assert "p1" != "p2" by { assert "p1"[1] != "p2"[1]; }
    assert "t" + "p2" == "tp2";
    assert after1[1..] == [SampleProduct("p2", 200, 1)];
    assert FindProductIndex(after1[1..], "p2") == Some(0);
    assert FindProductIndex(after1, "p2") == Some(1);
    assert RunLines(before, lines[..1]).products == after1;
  }
}
