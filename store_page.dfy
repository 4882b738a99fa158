/** The store page: the cart object it keeps in memory and saves after every
    change, the handlers that edit it against the stock in the database,
    the totals it displays, the demo catalogue it seeds, and the checkout. */
module StorePage {
  import opened Util
  import opened Decimal
  import opened Database
  import opened Cart
  import opened Storage
  import opened Checkout

  // ===== Cart edits as functions of the cart =====

  function Bump(it: CartItem): CartItem {
    it.(qty := it.qty + 1)
  }

  /** The line `addToCart` leaves: a first add captures the product's price
      and title with quantity 1, a later add only raises the quantity. */
  function AddOne(c: Cart, pid: string, p: Product): Cart {
    Put(c, pid, Bump(Lookup(c, pid).GetOr(CartItem(0, p.price, p.title))))
  }

  /** Adding raises the line's quantity by one and keeps the price and title
      of the first add; a first add stores one unit at the product's current
      price and title; no other line changes. */
  lemma AddOneEffect(c: Cart, pid: string, p: Product)
    ensures pid in AsMap(c) ==>
      AsMap(AddOne(c, pid, p)) == AsMap(c)[pid := AsMap(c)[pid].(qty := AsMap(c)[pid].qty + 1)]
    ensures pid !in AsMap(c) ==>
      AsMap(AddOne(c, pid, p)) == AsMap(c)[pid := CartItem(1, p.price, p.title)]
  {
    var m := AsMap(c);
    if pid in m {
      assert Lookup(c, pid) == Some(m[pid]);
    } else {
      assert Lookup(c, pid) == None;
    }
  }

  /** Each add raises the badge count by one. */
  lemma AddOneCount(c: Cart, pid: string, p: Product)
    ensures ItemCount(AddOne(c, pid, p)) == ItemCount(c) + 1
  {
    PutTotals(c, pid, Bump(Lookup(c, pid).GetOr(CartItem(0, p.price, p.title))));
  }

  function Shift(it: CartItem, delta: int): CartItem {
    it.(qty := it.qty + delta)
  }

  function Clamp(it: CartItem, stock: int): CartItem {
    if it.qty > stock then it.(qty := stock) else it
  }

  /** The line `modifyCart` leaves for a present id: removed when the new
      quantity is not positive, set to the stock when it exceeds it. */
  function Adjust(c: Cart, pid: string, delta: int, products: seq<Product>): Cart
    requires Lookup(c, pid).Some?
    requires Lookup(c, pid).value.qty + delta > 0 ==> FindProduct(products, pid).Some?
  {
    if Lookup(c, pid).value.qty + delta <= 0 then Remove(c, pid)
    else Put(c, pid, Clamp(Shift(Lookup(c, pid).value, delta), FindProduct(products, pid).value.stock))
  }

  /** A non-positive result deletes the line; otherwise the quantity becomes
      the smaller of the new quantity and the stock, price and title kept;
      other lines never change. */
  lemma AdjustEffect(c: Cart, pid: string, delta: int, products: seq<Product>)
    requires Lookup(c, pid).Some?
    requires Lookup(c, pid).value.qty + delta > 0 ==> FindProduct(products, pid).Some?
    ensures AsMap(c)[pid].qty + delta <= 0 ==>
      AsMap(Adjust(c, pid, delta, products)) == AsMap(c) - {pid}
    ensures AsMap(c)[pid].qty + delta > 0 ==>
      var stock := FindProduct(products, pid).value.stock;
      AsMap(Adjust(c, pid, delta, products)) ==
        AsMap(c)[pid := AsMap(c)[pid].(qty := if AsMap(c)[pid].qty + delta > stock then stock
                                              else AsMap(c)[pid].qty + delta)]
  {
    var m := AsMap(c);
    var it := m[pid];
    assert Lookup(c, pid).value == it;
    if it.qty + delta > 0 {
      var stock := FindProduct(products, pid).value.stock;
      var it' := Clamp(Shift(it, delta), stock);
      assert it' == it.(qty := if it.qty + delta > stock then stock else it.qty + delta);
      assert AsMap(Adjust(c, pid, delta, products)) == m[pid := it'];
    } else {
      assert AsMap(Adjust(c, pid, delta, products)) == m - {pid};
    }
  }

  /** The clamp makes the quantity the stock even when the stock is zero, so
      a line with quantity 0 can stay in the cart. */
  lemma AdjustKeepsZeroLine()
    ensures var c: Cart := [CartLine("p1", CartItem(2, 450, "Botella"))];
      var products := [Product("p1", "Botella", 450, 0, "merch", "", false, "")];
      Lookup(c, "p1").Some? && FindProduct(products, "p1").Some? &&
      Adjust(c, "p1", 1, products) == [CartLine("p1", CartItem(0, 450, "Botella"))]
  {
    var c: Cart := [CartLine("p1", CartItem(2, 450, "Botella"))];
    var products := [Product("p1", "Botella", 450, 0, "merch", "", false, "")];
    assert IndexOf(c, "p1") == Some(0);
    assert FindProductIndex(products, "p1") == Some(0);
  }

  // ===== The demo catalogue =====

  /** The five products `renderProducts` saves into an empty catalogue. */
  const DemoProducts: seq<ProductData> := [
    ProductData("", "Pack Zyrix \U{2014} Camiseta Premium", 800, 15, "merch", "", false),
    ProductData("", "Botella T\U{E9}cnica Zyrix", 450, 20, "merch", "", false),
    ProductData("", "Licencia Software Aerodin\U{E1}mico", 4500, 3, "software", "", false),
    ProductData("", "M\U{F3}dulo de Control Embebido", 2800, 5, "hardware", "", false),
    ProductData("", "Cable Especial OBD-II", 320, 30, "accesorios", "", false)
  ]

  /** The first `n` demo products as saved, each with its own clock. */
  function Seeded(clocks: seq<Clock>, n: nat): (ps: seq<Product>)
    requires n <= |DemoProducts| && |clocks| == |DemoProducts|
    ensures |ps| == n
    ensures forall k :: 0 <= k < n ==> ps[k] == NewProduct(DemoProducts[k], clocks[k])
  {
    if n == 0 then [] else Seeded(clocks, n - 1) + [NewProduct(DemoProducts[n - 1], clocks[n - 1])]
  }

  /** Every demo product is in stock at a positive price, and each gets its
      id from its clock alone, so two saved within the same millisecond share
      an id. */
  lemma SeededFacts(clocks: seq<Clock>)
    requires |clocks| == |DemoProducts|
    ensures forall k :: 0 <= k < 5 ==> Seeded(clocks, 5)[k].stock > 0 && Seeded(clocks, 5)[k].price > 0
    ensures forall k :: 0 <= k < 5 ==> Seeded(clocks, 5)[k].id == "p" + NatToString(clocks[k].millis)
    ensures clocks[0].millis == clocks[1].millis ==> Seeded(clocks, 5)[0].id == Seeded(clocks, 5)[1].id
  {
    forall k | 0 <= k < 5
      ensures DemoProducts[k].stock > 0 && DemoProducts[k].price > 0 && DemoProducts[k].id == ""
    {
    }
  }

  // ===== The page =====

  datatype AddResult = NoStock | Insufficient | Added

  datatype CheckoutResult = NotSignedIn | Unverified | EmptyCart
                          | LineFailed(error: LineError) | Purchased(order: Order)

  function OrdersPatch(orders: seq<Order>): UserPatch {
    UserPatch(None, None, None, None, None, None, None, Some(orders))
  }

  /** The database after the success path of a checkout, from the one the
      loop left: the new order with the counter advanced, and the order
      appended to the buyer's history. */
  function Purchase(db: Snapshot, email: string, items: seq<OrderItem>, total: int, clock: Clock): Snapshot
    requires FindUser(db.users, email).Some?
  {
    WithOrder(db, OrderData(email, items, Some(total)), clock)
      .(users := PatchUsers(db.users, email, OrdersPatch(FindUser(db.users, email).value.orders +
                  [MakeOrder(OrderData(email, items, Some(total)), NextSeq(db), clock)])).value)
  }

  /** A purchase adds exactly one order, numbered from the counter, which it
      advances; the buyer's history gains that order at its end; every other
      user, every product and every sponsor is unchanged. */
  lemma PurchaseEffect(db: Snapshot, email: string, items: seq<OrderItem>, total: int, clock: Clock)
    requires FindUser(db.users, email).Some?
    ensures var o := MakeOrder(OrderData(email, items, Some(total)), NextSeq(db), clock);
      var after := Purchase(db, email, items, total, clock);
      after.orders == db.orders + [o] && NextSeq(after) == NextSeq(db) + 1 &&
      after.products == db.products && after.sponsors == db.sponsors &&
      FindUser(after.users, email) == Some(FindUser(db.users, email).value.(orders := FindUser(db.users, email).value.orders + [o])) &&
      |after.users| == |db.users| &&
      forall k :: 0 <= k < |db.users| && db.users[k].email != email ==> after.users[k] == db.users[k]
  {
    var o := MakeOrder(OrderData(email, items, Some(total)), NextSeq(db), clock);
    var u := FindUser(db.users, email).value;
    var i := FindUserIndex(db.users, email).value;
    var users := db.users[i := ApplyUserPatch(db.users[i], OrdersPatch(u.orders + [o]))];
    FindIndexAfterUpdate(db.users, (x: User) => x.email == email, i, users[i]);
    assert Purchase(db, email, items, total, clock).users == users;
  }

  class StorePage {
    const db: Store
    const local: LocalStore
    var cart: Cart

    /** Loading the page reads the cart saved under the current key. */
    constructor(db: Store, local: LocalStore)
      ensures this.db == db && this.local == local && cart == local.LoadCart()
    {
      this.db := db;
      this.local := local;
      cart := local.LoadCart();
    }

    /** `saveCart`. */
    method SaveCart()
      modifies local
      ensures local.carts == old(local.carts)[CartKey(local.session) := cart]
      ensures local.session == old(local.session)
    {
      local.SaveCart(cart);
    }

    /** `addToCart`: refuses a missing or sold-out product and a line already
        at the stock; otherwise adds one unit and saves. */
    method AddToCart(pid: string) returns (r: AddResult)
      modifies this, local
      ensures var found := FindProduct(db.Read().products, pid);
        (r == NoStock <==> found.None? || found.value.stock <= 0) &&
        (r == Insufficient <==> found.Some? && found.value.stock > 0 &&
                                pid in AsMap(old(cart)) && AsMap(old(cart))[pid].qty >= found.value.stock) &&
        (r == Added ==> cart == AddOne(old(cart), pid, found.value) &&
                        AsMap(cart)[pid].qty <= found.value.stock)
      ensures r != Added ==> cart == old(cart) && local.carts == old(local.carts)
      ensures r == Added ==> local.carts == old(local.carts)[CartKey(local.session) := cart]
      ensures local.session == old(local.session)
    {
      var found := FindProduct(db.GetProducts(), pid);
      if found.None? || found.value.stock <= 0 {
        return NoStock;
      }
      var p := found.value;
      var it := Lookup(cart, pid).GetOr(CartItem(0, p.price, p.title));
      if it.qty >= p.stock {
        return Insufficient;
      }
      cart := Put(cart, pid, Bump(it));
      SaveCart();
      r := Added;
    }

    /** `modifyCart`: a no-op without saving for an id not in the cart;
        otherwise applies the change, deleting or clamping, and saves. The
        stock is looked up only when the new quantity is positive. */
    method ModifyCart(pid: string, delta: int) returns (clamped: bool)
      requires Lookup(cart, pid).Some? && Lookup(cart, pid).value.qty + delta > 0 ==>
                 FindProduct(db.Read().products, pid).Some?
      modifies this, local
      ensures Lookup(old(cart), pid).None? ==>
                cart == old(cart) && local.carts == old(local.carts) && !clamped
      ensures Lookup(old(cart), pid).Some? ==>
                cart == Adjust(old(cart), pid, delta, db.Read().products) &&
                local.carts == old(local.carts)[CartKey(local.session) := cart]
      ensures clamped <==> Lookup(old(cart), pid).Some? &&
                           Lookup(old(cart), pid).value.qty + delta > 0 &&
                           Lookup(old(cart), pid).value.qty + delta > FindProduct(db.Read().products, pid).value.stock
      ensures local.session == old(local.session)
    {
      clamped := false;
      var line := Lookup(cart, pid);
      if line.Some? {
        var found := FindProduct(db.GetProducts(), pid);
        var it := Shift(line.value, delta);
        if it.qty <= 0 {
          cart := Remove(cart, pid);
        } else if it.qty > found.value.stock {
          assert Clamp(it, found.value.stock) == it.(qty := found.value.stock);
          cart := Put(cart, pid, it.(qty := found.value.stock));
          clamped := true;
        } else {
          cart := Put(cart, pid, it);
        }
        SaveCart();
      }
    }

    /** `removeFromCart`: deletes the line, if any, and always saves. */
    method RemoveFromCart(pid: string)
      modifies this, local
      ensures cart == Remove(old(cart), pid) && AsMap(cart) == AsMap(old(cart)) - {pid}
      ensures local.carts == old(local.carts)[CartKey(local.session) := cart]
      ensures local.session == old(local.session)
    {
      cart := Remove(cart, pid);
      SaveCart();
    }

    /** The loop of `renderCart`: the badge count and the displayed total. */
    method CartSummary() returns (itemCount: int, total: int)
      ensures itemCount == ItemCount(cart) && total == CartTotal(cart)
    {
      itemCount, total := 0, 0;
      var i := 0;
      while i < |cart|
        invariant 0 <= i <= |cart|
        invariant itemCount == ItemCount(cart[..i]) && total == CartTotal(cart[..i])
      {
        assert cart[..i + 1][..i] == cart[..i];
        itemCount := itemCount + cart[i].item.qty;
        total := total + cart[i].item.qty * cart[i].item.price;
        i := i + 1;
      }
      assert cart[..i] == cart;
    }

    /** The seeding in `renderProducts`: an empty catalogue receives the five
        demo products in order, each saved with its own clock; a non-empty
        one is left alone. */
    method SeedDemoProducts(clocks: seq<Clock>)
      requires |clocks| == |DemoProducts|
      modifies db
      ensures old(db.Read()).products == [] ==>
                db.stored == Parsed(old(db.Read()).(products := Seeded(clocks, 5)))
      ensures old(db.Read()).products != [] ==> db.stored == old(db.stored)
    {
      if db.GetProducts() == [] {
        var i := 0;
        while i < |DemoProducts|
          invariant 0 <= i <= |DemoProducts|
          invariant i > 0 ==> db.stored == Parsed(old(db.Read()).(products := Seeded(clocks, i)))
          invariant i == 0 ==> db.stored == old(db.stored)
        {
          var _ := db.SaveProduct(DemoProducts[i], clocks[i]);
          i := i + 1;
        }
      }
    }

    /** One pass of the checkout loop: reads the products afresh, refuses a
        missing product or a quantity above its stock, and otherwise adds
        the item and writes the lowered stock at once. */
    method VisitLine(line: CartLine, items: seq<OrderItem>, total: int)
      returns (items': seq<OrderItem>, total': int, stop: Option<LineError>)
      requires db.stored.Parsed?
      modifies db
      ensures StepLine(Run(old(db.Read()).products, items, total, None), line) ==
                Run(db.Read().products, items', total', stop)
      ensures db.stored == Parsed(old(db.Read()).(products := db.Read().products))
    {
      var products := db.GetProducts();
      ghost var r := Run(products, items, total, None);
      items', total', stop := items, total, None;
      match FindProductIndex(products, line.pid) {
        case None =>
          stop := Some(ProductMissing(line.pid));
          assert StepLine(r, line) == r.(stop := stop);
        case Some(k) =>
          var p := products[k];
          if line.item.qty > p.stock {
            stop := Some(OverStock(p.title));
            assert StepLine(r, line) == r.(stop := stop);
          } else {
            items' := items + [OrderItem(line.pid, p.title, p.price, line.item.qty)];
            total' := total + line.item.qty * p.price;
            var lowered := products[k := p.(stock := p.stock - line.item.qty)];
            assert StepLine(r, line) == Run(lowered, items', total', None);
            StockPatchWrites(products, line.pid, p.stock - line.item.qty);
            var _ := db.UpdateProduct(line.pid, StockPatch(p.stock - line.item.qty));
            assert db.Read().products == lowered;
          }
      }
    }

    /** The checkout loop: visits the lines in cart order and stops at the
        first line that fails; the stored products are those of `RunLines`,
        with the decrements of the lines that passed. */
    method VisitCart() returns (items: seq<OrderItem>, total: int, stop: Option<LineError>)
      requires db.stored.Parsed?
      modifies db
      ensures RunLines(old(db.Read()).products, cart) == Run(db.Read().products, items, total, stop)
      ensures db.stored == Parsed(old(db.Read()).(products := db.Read().products))
    {
      ghost var s0 := db.Read();
      items, total, stop := [], 0, None;
      var i := 0;
      while i < |cart| && stop.None?
        invariant 0 <= i <= |cart|
        invariant RunLines(s0.products, cart[..i]) == Run(db.Read().products, items, total, stop)
        invariant db.stored == Parsed(s0.(products := db.Read().products))
        decreases |cart| - i
      {
        items, total, stop := VisitLine(cart[i], items, total);
        assert cart[..i + 1][..i] == cart[..i];
        i := i + 1;
      }
      if stop.Some? {
        RunStopSticky(s0.products, cart, i);
      } else {
        assert cart[..i] == cart;
      }
    }

    /** The success path: saves the order, then appends it to the buyer's
        history as read before the loop. */
    method PlaceOrder(email: string, orders: seq<Order>, items: seq<OrderItem>, total: int, clock: Clock)
      returns (o: Order)
      requires db.stored.Parsed? && FindUser(db.Read().users, email).Some?
      requires orders == FindUser(db.Read().users, email).value.orders
      modifies db
      ensures o == MakeOrder(OrderData(email, items, Some(total)), NextSeq(old(db.Read())), clock)
      ensures db.stored == Parsed(Purchase(old(db.Read()), email, items, total, clock))
    {
      o := db.SaveOrder(OrderData(email, items, Some(total)), clock);
      var _ := db.UpdateUser(email, OrdersPatch(orders + [o]));
    }

    /** The checkout handler. The gate refuses, changing nothing, without a
        session, for an unverified account and for an empty cart. The loop
        then visits the lines in cart order, writing each stock decrement as
        it goes; on the first missing product or line above the stock it
        stops, keeping the cart and the decrements already written. When
        every line passes, one order is saved, appended to the buyer's
        history, and the cart is emptied and saved. */
    method Checkout(clock: Clock) returns (r: CheckoutResult)
      requires local.session.Some? ==> FindUser(db.Read().users, local.session.value.email).Some?
      modifies this, db, local
      ensures local.session == old(local.session)
      ensures old(local.session).None? ==> r == NotSignedIn
      ensures r.NotSignedIn? || r.Unverified? || r.EmptyCart? || r.LineFailed? ==>
                cart == old(cart) && local.carts == old(local.carts)
      ensures r.NotSignedIn? || r.Unverified? || r.EmptyCart? ==> db.stored == old(db.stored)
      ensures old(local.session).Some? ==>
        var email := old(local.session).value.email;
        var u := FindUser(old(db.Read()).users, email).value;
        var run := RunLines(old(db.Read()).products, old(cart));
        (!u.verified ==> r == Unverified) &&
        (u.verified && old(cart) == [] ==> r == EmptyCart) &&
        (u.verified && old(cart) != [] && run.stop.Some? ==>
           r == LineFailed(run.stop.value) &&
           db.stored == Parsed(old(db.Read()).(products := run.products))) &&
        (u.verified && old(cart) != [] && run.stop.None? ==>
           r == Purchased(MakeOrder(OrderData(email, run.items, Some(run.total)), NextSeq(old(db.Read())), clock)) &&
           db.stored == Parsed(Purchase(old(db.Read()).(products := run.products), email, run.items, run.total, clock)) &&
           cart == [] && local.carts == old(local.carts)[CartKey(local.session) := []])
    {
      var user := local.CurrentUser();
      if user.None? {
        return NotSignedIn;
      }
      var email := user.value.email;
      var dbUser := db.FindUserByEmail(email).value;
      if !dbUser.verified {
        return Unverified;
      }
      if |cart| == 0 {
        return EmptyCart;
      }
      assert db.stored.Parsed? by {
        assert dbUser in db.Read().users;
      }
      var items, total, stop := VisitCart();
      if stop.Some? {
        return LineFailed(stop.value);
      }
      var o := PlaceOrder(email, dbUser.orders, items, total, clock);
      cart := [];
      SaveCart();
      r := Purchased(o);
    }
  }
}
