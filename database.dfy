/** The local-storage database: one snapshot record holding every user,
    product, sponsorship request and order together with the order counter.
    Every repository call reads the whole snapshot, edits it in memory and
    writes the whole snapshot back. */
module Database {
  import opened Util
  import opened Decimal

  /** `Date.now()` and `new Date().toISOString()` at the moment of a call. */
  datatype Clock = Clock(millis: nat, iso: string)

  datatype OrderItem = OrderItem(id: string, title: string, price: int, qty: int)

  /** `total` is `None` for a stored order that has no total. */
  datatype Order = Order(id: string, orderNumber: string, userEmail: string,
                         items: seq<OrderItem>, total: Option<int>,
                         currency: string, createdAt: string)

  datatype User = User(id: string, email: string, firstName: string, lastName: string,
                       phone: string, passHash: string, role: string, verified: bool,
                       verifyCode: Option<string>, orders: seq<Order>, createdAt: string)

  datatype Product = Product(id: string, title: string, price: int, stock: int,
                             category: string, image: string, featured: bool,
                             createdAt: string)

  datatype Sponsor = Sponsor(id: string, rep: string, mail: string, brand: string,
                             why: string, offer: string, expectation: string,
                             status: string, createdAt: string)

  /** `nextOrderNum` 0 stands for a counter that is missing or falsy. */
  datatype Snapshot = Snapshot(users: seq<User>, products: seq<Product>,
                               sponsors: seq<Sponsor>, orders: seq<Order>,
                               nextOrderNum: nat)

  /** The bytes under the database key: missing (or empty), not parseable,
      or a parsed snapshot. */
  datatype Stored = Absent | Corrupt | Parsed(snapshot: Snapshot)

  const DefaultSnapshot := Snapshot([], [], [], [], 1)

  /** `readDB`: missing or unparseable bytes yield a fresh default snapshot. */
  function ReadDB(stored: Stored): (db: Snapshot)
    ensures stored.Parsed? ==> db == stored.snapshot
    ensures !stored.Parsed? ==>
      db.users == [] && db.products == [] && db.sponsors == [] && db.orders == [] &&
      db.nextOrderNum == 1
  {
    match stored
    case Parsed(s) => s
    case _ => DefaultSnapshot
  }

  // ===== Field-wise merges (`Object.assign(record, patch)`) =====

  /** The fields a caller may patch on a user; `None` leaves a field as it is. */
  datatype UserPatch = UserPatch(firstName: Option<string>, lastName: Option<string>,
                                 phone: Option<string>, passHash: Option<string>,
                                 role: Option<string>, verified: Option<bool>,
                                 verifyCode: Option<Option<string>>,
                                 orders: Option<seq<Order>>)

  const NoUserChange := UserPatch(None, None, None, None, None, None, None, None)

  function ApplyUserPatch(u: User, p: UserPatch): User {
    u.(firstName := p.firstName.GetOr(u.firstName), lastName := p.lastName.GetOr(u.lastName),
       phone := p.phone.GetOr(u.phone), passHash := p.passHash.GetOr(u.passHash),
       role := p.role.GetOr(u.role), verified := p.verified.GetOr(u.verified),
       verifyCode := p.verifyCode.GetOr(u.verifyCode), orders := p.orders.GetOr(u.orders))
  }

  datatype ProductPatch = ProductPatch(title: Option<string>, price: Option<int>,
                                       stock: Option<int>, category: Option<string>,
                                       image: Option<string>, featured: Option<bool>)

  const NoProductChange := ProductPatch(None, None, None, None, None, None)

  function ApplyProductPatch(p: Product, q: ProductPatch): Product {
    p.(title := q.title.GetOr(p.title), price := q.price.GetOr(p.price),
       stock := q.stock.GetOr(p.stock), category := q.category.GetOr(p.category),
       image := q.image.GetOr(p.image), featured := q.featured.GetOr(p.featured))
  }

  datatype SponsorPatch = SponsorPatch(rep: Option<string>, mail: Option<string>,
                                       brand: Option<string>, why: Option<string>,
                                       offer: Option<string>, expectation: Option<string>,
                                       status: Option<string>)

  const NoSponsorChange := SponsorPatch(None, None, None, None, None, None, None)

  function ApplySponsorPatch(s: Sponsor, q: SponsorPatch): Sponsor {
    s.(rep := q.rep.GetOr(s.rep), mail := q.mail.GetOr(s.mail), brand := q.brand.GetOr(s.brand),
       why := q.why.GetOr(s.why), offer := q.offer.GetOr(s.offer),
       expectation := q.expectation.GetOr(s.expectation), status := q.status.GetOr(s.status))
  }

  // ===== Users =====

  function FindUserIndex(users: seq<User>, email: string): Option<nat> {
    FindIndex(users, (u: User) => u.email == email)
  }

  function FindUser(users: seq<User>, email: string): (r: Option<User>)
    ensures r.None? <==> forall k :: 0 <= k < |users| ==> users[k].email != email
    ensures r.Some? ==> r.value in users && r.value.email == email
  {
    match FindUserIndex(users, email)
    case None => None
    case Some(i) => Some(users[i])
  }

  /** What `saveUser` is given; empty strings stand for absent fields. */
  datatype UserData = UserData(id: string, email: string, firstName: string, lastName: string,
                               phone: string, passHash: string, role: string, verified: bool,
                               verifyCode: Option<string>)

  /** The record `saveUser` stores: the given fields, with the defaults for
      id, role and verification code, no orders and the creation time. */
  function NewUser(data: UserData, clock: Clock): (u: User)
    ensures u.email == data.email && u.firstName == data.firstName &&
            u.lastName == data.lastName && u.phone == data.phone &&
            u.passHash == data.passHash && u.verified == data.verified
    ensures u.role == (if data.role == "" then "user" else data.role)
    ensures u.verifyCode.Some? <==> data.verifyCode.Some? && data.verifyCode.value != ""
    ensures u.verifyCode.Some? ==> u.verifyCode == data.verifyCode
    ensures u.orders == [] && u.id != "" && u.createdAt == clock.iso
    ensures u.id == (if data.id != "" then data.id else "u" + NatToString(clock.millis))
  {
    User(if data.id != "" then data.id else "u" + NatToString(clock.millis),
         data.email, data.firstName, data.lastName, data.phone, data.passHash,
         if data.role != "" then data.role else "user",
         data.verified,
         if data.verifyCode == Some("") then None else data.verifyCode,
         [], clock.iso)
  }

  /** `updateUser` on the list: `None` when no user has the email; otherwise
      only the first user with it is merged with the patch. */
  function PatchUsers(users: seq<User>, email: string, patch: UserPatch): (r: Option<seq<User>>)
    ensures r.None? <==> forall k :: 0 <= k < |users| ==> users[k].email != email
    ensures r.Some? ==> |r.value| == |users| && exists i: nat ::
      i < |users| && users[i].email == email &&
      (forall k :: 0 <= k < i ==> users[k].email != email) &&
      r.value[i] == ApplyUserPatch(users[i], patch) &&
      (forall k :: 0 <= k < |users| && k != i ==> r.value[k] == users[k])
  {
    match FindUserIndex(users, email)
    case None => None
    case Some(i) => Some(users[i := ApplyUserPatch(users[i], patch)])
  }

  /** `deleteUser` on the list: every user with the email is dropped. */
  function WithoutUser(users: seq<User>, email: string): (r: seq<User>)
    ensures forall u :: u in r <==> u in users && u.email != email
    ensures (forall k :: 0 <= k < |users| ==> users[k].email != email) ==> r == users
  {
    Filter(users, (u: User) => u.email != email)
  }

  /** Deleting from a concatenation deletes from each part, in order. */
  lemma WithoutUserKeepsOrder(a: seq<User>, b: seq<User>, email: string)
    ensures WithoutUser(a + b, email) == WithoutUser(a, email) + WithoutUser(b, email)
  {
    FilterConcat(a, b, (u: User) => u.email != email);
  }

  // ===== Bootstrap administrator =====

  const AdminEmail := "sebastian"
  const AdminPassword := "colestre11"

  function AdminRecord(hash: string -> string, clock: Clock): User {
    User("u" + NatToString(clock.millis), AdminEmail, "Sebastian", "Admin", "000-000",
         hash(AdminPassword), "admin", true, None, [], clock.iso)
  }

  predicate HasAdmin(db: Snapshot) {
    FindUser(db.users, AdminEmail).Some?
  }

  /** The snapshot `init` leaves: unchanged when a user with the administrator
      email exists, otherwise with the administrator appended. */
  function Bootstrap(db: Snapshot, hash: string -> string, clock: Clock): (r: Snapshot)
    ensures HasAdmin(r)
    ensures r.products == db.products && r.sponsors == db.sponsors &&
            r.orders == db.orders && r.nextOrderNum == db.nextOrderNum
    ensures HasAdmin(db) ==> r == db
    ensures !HasAdmin(db) ==> r.users == db.users + [AdminRecord(hash, clock)]
  {
    if HasAdmin(db) then db
    else
      var r := db.(users := db.users + [AdminRecord(hash, clock)]);
      assert r.users[|db.users|].email == AdminEmail;
      r
  }

  /** A second `init` changes nothing, whatever its clock. */
  lemma BootstrapIdempotent(db: Snapshot, hash: string -> string, c1: Clock, c2: Clock)
    ensures Bootstrap(Bootstrap(db, hash, c1), hash, c2) == Bootstrap(db, hash, c1)
  {
  }

  /** `generateVerifyCode`, given the three letter indices and the number
      drawn by `Math.random()`. */
  function GenerateVerifyCode(i: nat, j: nat, k: nat, num: nat): (code: string)
    requires i < 26 && j < 26 && k < 26
    requires 100 <= num <= 999
    ensures |code| == 7
    ensures forall p :: 0 <= p < 3 ==> 'A' <= code[p] <= 'Z'
    ensures code[3] == '-'
    ensures AllDigits(code[4..]) && DigitsValue(code[4..]) == num
  {
    var letters := "ABCDEFGHIJKLMNOPQRSTUVWXYZ";
    ThreeDigits(num);
    NatToStringRoundTrip(num);
    assert forall q :: 0 <= q < |letters| ==> 'A' <= letters[q] <= 'Z';
    var code := [letters[i], letters[j], letters[k]] + "-" + NatToString(num);
    assert code[0] == letters[i] && code[1] == letters[j] && code[2] == letters[k];
    assert code[4..] == NatToString(num);
    code
  }

  // ===== Products =====

  function FindProductIndex(products: seq<Product>, id: string): Option<nat> {
    FindIndex(products, (p: Product) => p.id == id)
  }

  function FindProduct(products: seq<Product>, id: string): (r: Option<Product>)
    ensures r.None? <==> forall k :: 0 <= k < |products| ==> products[k].id != id
    ensures r.Some? ==> r.value in products && r.value.id == id
  {
    match FindProductIndex(products, id)
    case None => None
    case Some(i) => Some(products[i])
  }

  /** What `saveProduct` is given, its price and stock already parsed. */
  datatype ProductData = ProductData(id: string, title: string, price: int, stock: int,
                                     category: string, image: string, featured: bool)

  function NewProduct(data: ProductData, clock: Clock): (p: Product)
    ensures p.title == data.title && p.price == data.price && p.stock == data.stock &&
            p.category == data.category && p.image == data.image &&
            p.featured == data.featured && p.createdAt == clock.iso
    ensures p.id == (if data.id != "" then data.id else "p" + NatToString(clock.millis))
  {
    Product(if data.id != "" then data.id else "p" + NatToString(clock.millis),
            data.title, data.price, data.stock, data.category, data.image,
            data.featured, clock.iso)
  }

  function PatchProducts(products: seq<Product>, id: string, patch: ProductPatch): (r: Option<seq<Product>>)
    ensures r.None? <==> forall k :: 0 <= k < |products| ==> products[k].id != id
    ensures r.Some? ==> |r.value| == |products| && exists i: nat ::
      i < |products| && products[i].id == id &&
      (forall k :: 0 <= k < i ==> products[k].id != id) &&
      r.value[i] == ApplyProductPatch(products[i], patch) &&
      (forall k :: 0 <= k < |products| && k != i ==> r.value[k] == products[k])
  {
    match FindProductIndex(products, id)
    case None => None
    case Some(i) => Some(products[i := ApplyProductPatch(products[i], patch)])
  }

  function WithoutProduct(products: seq<Product>, id: string): (r: seq<Product>)
    ensures forall p :: p in r <==> p in products && p.id != id
    ensures (forall k :: 0 <= k < |products| ==> products[k].id != id) ==> r == products
  {
    Filter(products, (p: Product) => p.id != id)
  }

  lemma WithoutProductKeepsOrder(a: seq<Product>, b: seq<Product>, id: string)
    ensures WithoutProduct(a + b, id) == WithoutProduct(a, id) + WithoutProduct(b, id)
  {
    FilterConcat(a, b, (p: Product) => p.id != id);
  }

  // ===== Sponsors =====

  datatype SponsorData = SponsorData(id: string, rep: string, mail: string, brand: string,
                                     why: string, offer: string, expectation: string,
                                     status: string)

  function NewSponsor(data: SponsorData, clock: Clock): (s: Sponsor)
    ensures s.rep == data.rep && s.mail == data.mail && s.brand == data.brand &&
            s.why == data.why && s.offer == data.offer && s.expectation == data.expectation
    ensures s.status == (if data.status == "" then "pending" else data.status)
    ensures s.id != "" && s.createdAt == clock.iso
    ensures s.id == (if data.id != "" then data.id else "sp" + NatToString(clock.millis))
  {
    Sponsor(if data.id != "" then data.id else "sp" + NatToString(clock.millis),
            data.rep, data.mail, data.brand, data.why, data.offer, data.expectation,
            if data.status != "" then data.status else "pending", clock.iso)
  }

  function FindSponsorIndex(sponsors: seq<Sponsor>, id: string): Option<nat> {
    FindIndex(sponsors, (s: Sponsor) => s.id == id)
  }

  function PatchSponsors(sponsors: seq<Sponsor>, id: string, patch: SponsorPatch): (r: Option<seq<Sponsor>>)
    ensures r.None? <==> forall k :: 0 <= k < |sponsors| ==> sponsors[k].id != id
    ensures r.Some? ==> |r.value| == |sponsors| && exists i: nat ::
      i < |sponsors| && sponsors[i].id == id &&
      (forall k :: 0 <= k < i ==> sponsors[k].id != id) &&
      r.value[i] == ApplySponsorPatch(sponsors[i], patch) &&
      (forall k :: 0 <= k < |sponsors| && k != i ==> r.value[k] == sponsors[k])
  {
    match FindSponsorIndex(sponsors, id)
    case None => None
    case Some(i) => Some(sponsors[i := ApplySponsorPatch(sponsors[i], patch)])
  }

  // ===== Orders =====

  /** The order number `ZRX-2026-` followed by the sequence number padded
      with zeros to at least four digits. */
  function OrderNumber(n: nat): string {
    "ZRX-2026-" + PadStart(NatToString(n), 4, '0')
  }

  /** The order number has the fixed prefix and a digit suffix that reads
      back as the sequence number; below 10000 it is 13 characters long. */
  lemma OrderNumberFormat(n: nat)
    ensures |OrderNumber(n)| >= 13 && OrderNumber(n)[..9] == "ZRX-2026-"
    ensures AllDigits(OrderNumber(n)[9..]) && DigitsValue(OrderNumber(n)[9..]) == n
    ensures n < 10000 ==> |OrderNumber(n)| == 13
  {
    var digits := PadStart(NatToString(n), 4, '0');
    PaddedRoundTrip(n, 4);
    FourDigitsAtMost(n);
    assert OrderNumber(n)[9..] == digits;
  }

  /** Distinct sequence numbers never share an order number. */
  lemma OrderNumberInjective(a: nat, b: nat)
    requires OrderNumber(a) == OrderNumber(b)
    ensures a == b
  {
    OrderNumberFormat(a);
    OrderNumberFormat(b);
    assert OrderNumber(a)[9..] == OrderNumber(b)[9..];
  }

  lemma FirstOrderNumber()
    ensures OrderNumber(1) == "ZRX-2026-0001"
  {
    assert NatToString(1) == "1";
    assert Repeat('0', 3) == "000";
  }

  /** The sequence number the next order gets: the counter, 1 if it is missing. */
  function NextSeq(db: Snapshot): (n: nat)
    ensures n >= 1
  {
    if db.nextOrderNum == 0 then 1 else db.nextOrderNum
  }

  datatype OrderData = OrderData(userEmail: string, items: seq<OrderItem>, total: Option<int>)

  function MakeOrder(data: OrderData, seqNum: nat, clock: Clock): (o: Order)
    ensures o.orderNumber == OrderNumber(seqNum) && o.currency == "DOP"
    ensures o.userEmail == data.userEmail && o.items == data.items && o.total == data.total
  {
    Order("o" + NatToString(clock.millis), OrderNumber(seqNum), data.userEmail,
          data.items, data.total, "DOP", clock.iso)
  }

  /** The snapshot `saveOrder` writes: the order appended and the counter
      advanced past the number it used, in the same record. */
  function WithOrder(db: Snapshot, data: OrderData, clock: Clock): (r: Snapshot)
    ensures r.orders == db.orders + [MakeOrder(data, NextSeq(db), clock)]
    ensures NextSeq(r) == NextSeq(db) + 1
    ensures r.users == db.users && r.products == db.products && r.sponsors == db.sponsors
  {
    db.(orders := db.orders + [MakeOrder(data, NextSeq(db), clock)],
        nextOrderNum := NextSeq(db) + 1)
  }

  /** Saving several orders one after the other. */
  function WithOrders(db: Snapshot, reqs: seq<(OrderData, Clock)>): Snapshot
    decreases |reqs|
  {
    if reqs == [] then db
    else WithOrders(WithOrder(db, reqs[0].0, reqs[0].1), reqs[1..])
  }

  /** The orders minted for `reqs` when numbering starts at `n`. */
  function Minted(n: nat, reqs: seq<(OrderData, Clock)>): seq<Order>
    decreases |reqs|
  {
    if reqs == [] then []
    else [MakeOrder(reqs[0].0, n, reqs[0].1)] + Minted(n + 1, reqs[1..])
  }

  /** Saving several orders leaves the counter just past the last number used. */
  lemma {:induction false} WithOrdersAdvancesCounter(db: Snapshot, reqs: seq<(OrderData, Clock)>)
    ensures NextSeq(WithOrders(db, reqs)) == NextSeq(db) + |reqs|
    decreases |reqs|
  {
    if reqs != [] {
      WithOrdersAdvancesCounter(WithOrder(db, reqs[0].0, reqs[0].1), reqs[1..]);
    }
  }

  /** One `saveOrder` followed by the rest appends the same orders as minting
      them all from the original counter. */
  lemma MintedStep(db: Snapshot, reqs: seq<(OrderData, Clock)>)
    requires reqs != []
    ensures var db1 := WithOrder(db, reqs[0].0, reqs[0].1);
      db1.orders + Minted(NextSeq(db1), reqs[1..]) == db.orders + Minted(NextSeq(db), reqs)
  {
    var o := MakeOrder(reqs[0].0, NextSeq(db), reqs[0].1);
    var m := Minted(NextSeq(db) + 1, reqs[1..]);
    assert Minted(NextSeq(db), reqs) == [o] + m;
    assert (db.orders + [o]) + m == db.orders + ([o] + m);
  }

  /** Saving several orders appends exactly the orders minted from the
      counter on. */
  lemma {:induction false} WithOrdersAppendsMinted(db: Snapshot, reqs: seq<(OrderData, Clock)>)
    ensures WithOrders(db, reqs).orders == db.orders + Minted(NextSeq(db), reqs)
    decreases |reqs|
  {
    if reqs == [] {
      assert db.orders + [] == db.orders;
    } else {
      WithOrdersAppendsMinted(WithOrder(db, reqs[0].0, reqs[0].1), reqs[1..]);
      MintedStep(db, reqs);
    }
  }

  lemma {:induction false} MintedLength(n: nat, reqs: seq<(OrderData, Clock)>)
    ensures |Minted(n, reqs)| == |reqs|
    decreases |reqs|
  {
    if reqs != [] {
      MintedLength(n + 1, reqs[1..]);
    }
  }

  /** The k-th minted order is the k-th request numbered n + k. */
  lemma {:induction false} MintedAt(n: nat, reqs: seq<(OrderData, Clock)>, k: nat)
    requires k < |reqs|
    ensures |Minted(n, reqs)| == |reqs|
    ensures Minted(n, reqs)[k] == MakeOrder(reqs[k].0, n + k, reqs[k].1)
    decreases k
  {
    MintedLength(n, reqs);
    var rest := Minted(n + 1, reqs[1..]);
    assert Minted(n, reqs) == [MakeOrder(reqs[0].0, n, reqs[0].1)] + rest;
    if k == 0 {
      assert Minted(n, reqs)[0] == MakeOrder(reqs[0].0, n, reqs[0].1);
    } else {
      MintedAt(n + 1, reqs[1..], k - 1);
      assert reqs[1..][k - 1] == reqs[k];
      assert Minted(n, reqs)[k] == rest[k - 1];
    }
  }

  /** The k-th minted order carries sequence number n + k: numbers are
      consecutive, with no gaps and no repeats. */
  lemma MintedNumbering(n: nat, reqs: seq<(OrderData, Clock)>)
    ensures |Minted(n, reqs)| == |reqs|
    ensures forall k :: 0 <= k < |reqs| ==> Minted(n, reqs)[k].orderNumber == OrderNumber(n + k)
  {
    MintedLength(n, reqs);
    forall k | 0 <= k < |reqs|
      ensures Minted(n, reqs)[k].orderNumber == OrderNumber(n + k)
    {
      MintedAt(n, reqs, k);
    }
  }

  /** Orders saved one after the other never share an order number. */
  lemma MintedNumbersDistinct(n: nat, reqs: seq<(OrderData, Clock)>, j: nat, k: nat)
    requires j < k < |reqs|
    ensures |Minted(n, reqs)| == |reqs|
    ensures Minted(n, reqs)[j].orderNumber != Minted(n, reqs)[k].orderNumber
  {
    MintedAt(n, reqs, j);
    MintedAt(n, reqs, k);
    if OrderNumber(n + j) == OrderNumber(n + k) {
      OrderNumberInjective(n + j, n + k);
    }
  }

  // ===== Stats =====

  datatype Stats = Stats(totalUsers: nat, verifiedUsers: nat, totalOrders: nat,
                         totalRevenue: int, totalProducts: nat, activeProducts: nat,
                         activeSponsors: nat, pendingSponsors: nat)

  /** `reduce((sum, o) => sum + (o.total || 0), 0)`. */
  function Revenue(orders: seq<Order>): int {
    if orders == [] then 0
    else Revenue(orders[..|orders| - 1]) + orders[|orders| - 1].total.GetOr(0)
  }

  /** Revenue adds up over consecutive runs of orders. */
  lemma {:induction false} RevenueConcat(a: seq<Order>, b: seq<Order>)
    ensures Revenue(a + b) == Revenue(a) + Revenue(b)
    decreases |b|
  {
    if b != [] {
      assert (a + b)[..|a + b| - 1] == a + b[..|b| - 1];
      assert (a + b)[|a + b| - 1] == b[|b| - 1];
      RevenueConcat(a, b[..|b| - 1]);
    } else {
      assert a + b == a;
    }
  }

  /** Orders without a total add nothing, and with totals never negative
      the revenue is never negative. */
  lemma {:induction false} RevenueNonNegative(orders: seq<Order>)
    requires forall k :: 0 <= k < |orders| ==> orders[k].total.GetOr(0) >= 0
    ensures Revenue(orders) >= 0
  {
    if orders != [] {
      RevenueNonNegative(orders[..|orders| - 1]);
    }
  }

  // The tests `getStats` filters by.
  predicate IsVerified(u: User) { u.verified }
  predicate InStock(p: Product) { p.stock > 0 }
  predicate IsActive(s: Sponsor) { s.status == "active" }
  predicate IsPending(s: Sponsor) { s.status == "pending" }

  /** `getStats`: each figure is the size of a list or the number of
      positions whose record passes the figure's test. */
  function ComputeStats(db: Snapshot): (s: Stats)
    ensures s.totalUsers == |db.users| && s.totalOrders == |db.orders| &&
            s.totalProducts == |db.products| && s.totalRevenue == Revenue(db.orders)
    ensures s.verifiedUsers == |set k | 0 <= k < |db.users| && db.users[k].verified|
    ensures s.activeProducts == |set k | 0 <= k < |db.products| && db.products[k].stock > 0|
    ensures s.activeSponsors == |set k | 0 <= k < |db.sponsors| && db.sponsors[k].status == "active"|
    ensures s.pendingSponsors == |set k | 0 <= k < |db.sponsors| && db.sponsors[k].status == "pending"|
    ensures s.verifiedUsers <= s.totalUsers && s.activeProducts <= s.totalProducts
    ensures s.activeSponsors + s.pendingSponsors <= |db.sponsors|
    ensures s.activeProducts == |db.products| <==>
            forall k :: 0 <= k < |db.products| ==> db.products[k].stock > 0
  {
    VerifiedCount(db.users);
    InStockCount(db.products);
    SponsorCounts(db.sponsors);
    Stats(|db.users|, Count(db.users, IsVerified), |db.orders|,
          Revenue(db.orders), |db.products|, Count(db.products, InStock),
          Count(db.sponsors, IsActive), Count(db.sponsors, IsPending))
  }

  lemma VerifiedCount(users: seq<User>)
    ensures Count(users, IsVerified) == |set k | 0 <= k < |users| && users[k].verified|
  {
    CountIsIndexSetSize(users, IsVerified);
    assert Positions(users, IsVerified) ==
           (set k | 0 <= k < |users| && users[k].verified);
  }

  lemma SponsorCounts(sponsors: seq<Sponsor>)
    ensures Count(sponsors, IsActive) == |set k | 0 <= k < |sponsors| && sponsors[k].status == "active"|
    ensures Count(sponsors, IsPending) == |set k | 0 <= k < |sponsors| && sponsors[k].status == "pending"|
    ensures Count(sponsors, IsActive) + Count(sponsors, IsPending) <= |sponsors|
  {
    CountIsIndexSetSize(sponsors, IsActive);
    assert Positions(sponsors, IsActive) ==
           (set k | 0 <= k < |sponsors| && sponsors[k].status == "active");
    CountIsIndexSetSize(sponsors, IsPending);
    assert Positions(sponsors, IsPending) ==
           (set k | 0 <= k < |sponsors| && sponsors[k].status == "pending");
    CountDisjoint(sponsors, IsActive, IsPending);
  }

  /** The in-stock figure counts the positions with stock, and it equals the
      number of products exactly when every product has stock. */
  lemma InStockCount(products: seq<Product>)
    ensures Count(products, InStock) == |set k | 0 <= k < |products| && products[k].stock > 0|
    ensures Count(products, InStock) == |products| <==>
            forall k :: 0 <= k < |products| ==> products[k].stock > 0
  {
    CountIsIndexSetSize(products, InStock);
    assert Positions(products, InStock) ==
           (set k | 0 <= k < |products| && products[k].stock > 0);
    CountAll(products, InStock);
  }

  // ===== The store object =====

  /** The database key of local storage. Reads return the snapshot the
      stored bytes decode to; every write replaces the whole record. */
  class Store {
    var stored: Stored

    constructor(initial: Stored)
      ensures stored == initial
    {
      stored := initial;
    }

    function Read(): Snapshot
      reads this
    {
      ReadDB(stored)
    }

    /** `writeDB`: the record read back is exactly the one written. */
    method Write(db: Snapshot)
      modifies this
      ensures stored == Parsed(db) && Read() == db
    {
      stored := Parsed(db);
    }

    /** `init`: appends the administrator unless a user with its email exists;
        writes only when it appends. */
    method Init(hash: string -> string, clock: Clock) returns (db: Snapshot)
      modifies this
      ensures db == Bootstrap(old(Read()), hash, clock) && Read() == db
      ensures HasAdmin(old(Read())) ==> stored == old(stored)
      ensures !HasAdmin(old(Read())) ==> stored == Parsed(db)
    {
      db := Read();
      if FindUser(db.users, AdminEmail).None? {
        db := db.(users := db.users + [AdminRecord(hash, clock)]);
        Write(db);
      }
    }

    function GetUsers(): seq<User>
      reads this
    {
      Read().users
    }

    function FindUserByEmail(email: string): Option<User>
      reads this
    {
      FindUser(Read().users, email)
    }

    /** `saveUser`: appends exactly one record, without checking the email. */
    method SaveUser(data: UserData, clock: Clock) returns (u: User)
      modifies this
      ensures u == NewUser(data, clock)
      ensures stored == Parsed(old(Read()).(users := old(Read()).users + [u]))
    {
      var db := Read();
      u := NewUser(data, clock);
      db := db.(users := db.users + [u]);
      Write(db);
    }

    /** `updateUser`: no match returns `None` and writes nothing; otherwise the
        merged record is written and returned, and it is still the record a
        lookup by that email finds. */
    method UpdateUser(email: string, patch: UserPatch) returns (r: Option<User>)
      modifies this
      ensures PatchUsers(old(Read()).users, email, patch).None? ==>
                r.None? && stored == old(stored)
      ensures PatchUsers(old(Read()).users, email, patch).Some? ==>
                stored == Parsed(old(Read()).(users := PatchUsers(old(Read()).users, email, patch).value)) &&
                r == FindUser(Read().users, email) && r.Some?
    {
      var db := Read();
      match FindUserIndex(db.users, email) {
        case None =>
          r := None;
        case Some(i) =>
          var u := ApplyUserPatch(db.users[i], patch);
          FindIndexAfterUpdate(db.users, (x: User) => x.email == email, i, u);
          db := db.(users := db.users[i := u]);
          Write(db);
          r := Some(u);
      }
    }

    /** `deleteUser`: keeps, in order, every user with another email; always
        writes. */
    method DeleteUser(email: string)
      modifies this
      ensures stored == Parsed(old(Read()).(users := WithoutUser(old(Read()).users, email)))
    {
      var db := Read();
      db := db.(users := WithoutUser(db.users, email));
      Write(db);
    }

    function GetProducts(): seq<Product>
      reads this
    {
      Read().products
    }

    method SaveProduct(data: ProductData, clock: Clock) returns (p: Product)
      modifies this
      ensures p == NewProduct(data, clock)
      ensures stored == Parsed(old(Read()).(products := old(Read()).products + [p]))
    {
      var db := Read();
      p := NewProduct(data, clock);
      db := db.(products := db.products + [p]);
      Write(db);
    }

    method UpdateProduct(id: string, patch: ProductPatch) returns (r: Option<Product>)
      modifies this
      ensures PatchProducts(old(Read()).products, id, patch).None? ==>
                r.None? && stored == old(stored)
      ensures PatchProducts(old(Read()).products, id, patch).Some? ==>
                stored == Parsed(old(Read()).(products := PatchProducts(old(Read()).products, id, patch).value)) &&
                r == FindProduct(Read().products, id) && r.Some?
    {
      var db := Read();
      match FindProductIndex(db.products, id) {
        case None =>
          r := None;
        case Some(i) =>
          var p := ApplyProductPatch(db.products[i], patch);
          FindIndexAfterUpdate(db.products, (x: Product) => x.id == id, i, p);
          db := db.(products := db.products[i := p]);
          Write(db);
          r := Some(p);
      }
    }

    method DeleteProduct(id: string)
      modifies this
      ensures stored == Parsed(old(Read()).(products := WithoutProduct(old(Read()).products, id)))
    {
      var db := Read();
      db := db.(products := WithoutProduct(db.products, id));
      Write(db);
    }

    function GetSponsors(): seq<Sponsor>
      reads this
    {
      Read().sponsors
    }

    method SaveSponsor(data: SponsorData, clock: Clock) returns (s: Sponsor)
      modifies this
      ensures s == NewSponsor(data, clock)
      ensures stored == Parsed(old(Read()).(sponsors := old(Read()).sponsors + [s]))
    {
      var db := Read();
      s := NewSponsor(data, clock);
      db := db.(sponsors := db.sponsors + [s]);
      Write(db);
    }

    /** `updateSponsor`: merges the patch whatever the current status is. */
    method UpdateSponsor(id: string, patch: SponsorPatch) returns (r: Option<Sponsor>)
      modifies this
      ensures PatchSponsors(old(Read()).sponsors, id, patch).None? ==>
                r.None? && stored == old(stored)
      ensures PatchSponsors(old(Read()).sponsors, id, patch).Some? ==>
                stored == Parsed(old(Read()).(sponsors := PatchSponsors(old(Read()).sponsors, id, patch).value)) &&
                FindSponsorIndex(Read().sponsors, id).Some? &&
                r == Some(Read().sponsors[FindSponsorIndex(Read().sponsors, id).value])
    {
      var db := Read();
      match FindSponsorIndex(db.sponsors, id) {
        case None =>
          r := None;
        case Some(i) =>
          var s := ApplySponsorPatch(db.sponsors[i], patch);
          FindIndexAfterUpdate(db.sponsors, (x: Sponsor) => x.id == id, i, s);
          db := db.(sponsors := db.sponsors[i := s]);
          Write(db);
          r := Some(s);
      }
    }

    function GetOrders(): seq<Order>
      reads this
    {
      Read().orders
    }

    /** `saveOrder`: numbers the order from the counter and advances the
        counter in the same write. */
    method SaveOrder(data: OrderData, clock: Clock) returns (o: Order)
      modifies this
      ensures o == MakeOrder(data, NextSeq(old(Read())), clock)
      ensures stored == Parsed(WithOrder(old(Read()), data, clock))
    {
      var db := Read();
      var orderNum := if db.nextOrderNum == 0 then 1 else db.nextOrderNum;
      db := db.(nextOrderNum := orderNum + 1);
      o := MakeOrder(data, orderNum, clock);
      db := db.(orders := db.orders + [o]);
      Write(db);
    }

    function GetStats(): Stats
      reads this
    {
      ComputeStats(Read())
    }
  }
}
