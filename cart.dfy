/** The shopping cart: an object keyed by product id whose values are
    `{qty, price, title}`. Its keys are product ids (`p` followed by digits),
    never integer-like, so `for...in` visits them in insertion order; the cart
    is therefore an ordered list of lines with distinct ids, and read as a
    dictionary through `AsMap`. */
module Cart {
  import opened Util

  datatype CartItem = CartItem(qty: int, price: int, title: string)

  datatype CartLine = CartLine(pid: string, item: CartItem)

  predicate UniqueIds(lines: seq<CartLine>) {
    forall i, j :: 0 <= i < j < |lines| ==> lines[i].pid != lines[j].pid
  }

  type Cart = c: seq<CartLine> | UniqueIds(c) witness []

  function IndexOf(c: seq<CartLine>, pid: string): Option<nat> {
    FindIndex(c, (l: CartLine) => l.pid == pid)
  }

  /** The keys in the order `for...in` visits them. */
  function Ids(c: seq<CartLine>): (ids: seq<string>)
    ensures |ids| == |c| && forall k :: 0 <= k < |c| ==> ids[k] == c[k].pid
  {
    seq(|c|, k requires 0 <= k < |c| => c[k].pid)
  }

  /** The dictionary the cart stands for: each line, first to last, sets
      its key. */
  function AsMap(c: seq<CartLine>): map<string, CartItem>
    decreases |c|
  {
    if c == [] then map[] else AsMap(c[..|c| - 1])[c[|c| - 1].pid := c[|c| - 1].item]
  }

  /** Every line of a cart is in the dictionary under its id. */
  lemma {:induction false} AsMapAt(c: Cart, i: nat)
    requires i < |c|
    ensures c[i].pid in AsMap(c) && AsMap(c)[c[i].pid] == c[i].item
    decreases |c|
  {
    if i < |c| - 1 {
      var init: Cart := c[..|c| - 1];
      AsMapAt(init, i);
      assert init[i] == c[i];
    }
  }

  /** An id on no line is not a key. */
  lemma {:induction false} AsMapMissing(c: seq<CartLine>, pid: string)
    requires forall k :: 0 <= k < |c| ==> c[k].pid != pid
    ensures pid !in AsMap(c)
    decreases |c|
  {
    if c != [] {
      AsMapMissing(c[..|c| - 1], pid);
    }
  }

  /** `cart[pid]`. */
  function Lookup(c: Cart, pid: string): (r: Option<CartItem>)
    ensures r.None? <==> pid !in AsMap(c)
    ensures r.Some? ==> r.value == AsMap(c)[pid]
  {
    match IndexOf(c, pid)
    case None =>
      AsMapMissing(c, pid);
      None
    case Some(i) =>
      AsMapAt(c, i);
      Some(c[i].item)
  }

  /** `cart[pid] = item`: an existing key keeps its place, a new key goes last. */
  function Put(c: Cart, pid: string, it: CartItem): (r: Cart)
    ensures AsMap(r) == AsMap(c)[pid := it]
    ensures pid !in AsMap(c) ==> r == c + [CartLine(pid, it)]
    ensures pid in AsMap(c) ==> Ids(r) == Ids(c)
  {
    match IndexOf(c, pid)
    case None =>
      var r := c + [CartLine(pid, it)];
      AsMapMissing(c, pid);
      assert r[..|r| - 1] == c;
      r
    case Some(i) =>
      assert c[i].pid == pid;
      AsMapAt(c, i);
      var r := c[i := CartLine(pid, it)];
      AsMapReplaced(c, i, it);
      assert Ids(r) == Ids(c);
      r
  }

  /** Overwriting the item of line `i` overwrites its key. */
  lemma {:induction false} AsMapReplaced(c: Cart, i: nat, it: CartItem)
    requires i < |c|
    ensures UniqueIds(c[i := CartLine(c[i].pid, it)])
    ensures AsMap(c[i := CartLine(c[i].pid, it)]) == AsMap(c)[c[i].pid := it]
    decreases |c|
  {
    var r := c[i := CartLine(c[i].pid, it)];
    var n := |c|;
    if i == n - 1 {
      assert r[..n - 1] == c[..n - 1];
    } else {
      var init: Cart := c[..n - 1];
      AsMapReplaced(init, i, it);
      assert r[..n - 1] == init[i := CartLine(init[i].pid, it)];
      assert c[n - 1].pid != c[i].pid;
    }
  }

  /** `delete cart[pid]`: the other lines keep their order. */
  function Remove(c: Cart, pid: string): (r: Cart)
    ensures AsMap(r) == AsMap(c) - {pid}
    ensures pid !in AsMap(c) ==> r == c
    ensures pid in AsMap(c) ==>
      IndexOf(c, pid).Some? && r == c[..IndexOf(c, pid).value] + c[IndexOf(c, pid).value + 1..]
  {
    match IndexOf(c, pid)
    case None =>
      AsMapMissing(c, pid);
      c
    case Some(i) =>
      assert c[i].pid == pid;
      AsMapAt(c, i);
      AsMapRemoved(c, i);
      c[..i] + c[i + 1..]
  }

  lemma DropKeepsUnique(c: Cart, i: nat)
    requires i < |c|
    ensures UniqueIds(c[..i] + c[i + 1..])
  {
    var r := c[..i] + c[i + 1..];
    assert forall k :: 0 <= k < i ==> r[k] == c[k];
    assert forall k :: i <= k < |r| ==> r[k] == c[k + 1];
  }

  /** Dropping line `i` keeps the ids distinct and deletes its key. */
  lemma {:induction false} AsMapRemoved(c: Cart, i: nat)
    requires i < |c|
    ensures UniqueIds(c[..i] + c[i + 1..])
    ensures AsMap(c[..i] + c[i + 1..]) == AsMap(c) - {c[i].pid}
    decreases |c|
  {
    DropKeepsUnique(c, i);
    var init: Cart := c[..|c| - 1];
    if i == |c| - 1 {
      assert c[..i] + c[i + 1..] == init;
      AsMapMissing(init, c[i].pid);
    } else {
      AsMapRemoved(init, i);
      assert init[i] == c[i];
      AsMapRemovedStep(c, i);
    }
  }

  /** The inductive step of `AsMapRemoved`: the last line, which is not the
      dropped one, sets its key on both sides. */
  lemma AsMapRemovedStep(c: seq<CartLine>, i: nat)
    requires i < |c| - 1 && c[|c| - 1].pid != c[i].pid
    requires AsMap(c[..|c| - 1][..i] + c[..|c| - 1][i + 1..]) == AsMap(c[..|c| - 1]) - {c[i].pid}
    ensures AsMap(c[..i] + c[i + 1..]) == AsMap(c) - {c[i].pid}
  {
    var init := c[..|c| - 1];
    var r := c[..i] + c[i + 1..];
    var last := c[|c| - 1];
    var m := AsMap(init);
    var rest := init[..i] + init[i + 1..];
    assert r[..|r| - 1] == rest && r[|r| - 1] == last;
    AsMapSnoc(r);
    AsMapSnoc(c);
    UpdateMinusCommute(m, c[i].pid, last.pid, last.item);
  }

  /** The defining step of `AsMap`, as a fact about a named sequence. */
  lemma AsMapSnoc(s: seq<CartLine>)
    requires s != []
    ensures AsMap(s) == AsMap(s[..|s| - 1])[s[|s| - 1].pid := s[|s| - 1].item]
  {
  }

  lemma UpdateMinusCommute<K, V>(m: map<K, V>, p: K, k: K, v: V)
    requires p != k
    ensures (m - {p})[k := v] == m[k := v] - {p}
  {
  }

  // ===== Totals shown by `renderCart` =====

  /** The sum of `f` over the lines, accumulated first to last. */
  function SumOf(lines: seq<CartLine>, f: CartLine -> int): int {
    if lines == [] then 0 else SumOf(lines[..|lines| - 1], f) + f(lines[|lines| - 1])
  }

  lemma {:induction false} SumOfConcat(a: seq<CartLine>, b: seq<CartLine>, f: CartLine -> int)
    ensures SumOf(a + b, f) == SumOf(a, f) + SumOf(b, f)
    decreases |b|
  {
    if b == [] {
      assert a + b == a;
    } else {
      assert (a + b)[..|a + b| - 1] == a + b[..|b| - 1];
      SumOfConcat(a, b[..|b| - 1], f);
    }
  }

  /** Replacing line `i` changes the sum by the difference of the two lines. */
  lemma SumOfUpdate(c: seq<CartLine>, i: nat, x: CartLine, f: CartLine -> int)
    requires i < |c|
    ensures SumOf(c[i := x], f) == SumOf(c, f) - f(c[i]) + f(x)
  {
    assert c == c[..i] + [c[i]] + c[i + 1..];
    assert c[i := x] == c[..i] + [x] + c[i + 1..];
    SumOfConcat(c[..i] + [c[i]], c[i + 1..], f);
    SumOfConcat(c[..i], [c[i]], f);
    SumOfConcat(c[..i] + [x], c[i + 1..], f);
    SumOfConcat(c[..i], [x], f);
    assert SumOf([c[i]], f) == f(c[i]) by { assert [c[i]][..0] == []; }
    assert SumOf([x], f) == f(x) by { assert [x][..0] == []; }
  }

  /** Dropping line `i` lowers the sum by that line. */
  lemma SumOfDrop(c: seq<CartLine>, i: nat, f: CartLine -> int)
    requires i < |c|
    ensures SumOf(c[..i] + c[i + 1..], f) == SumOf(c, f) - f(c[i])
  {
    var a, b := c[..i], c[i + 1..];
    var upto := c[..i + 1];
    assert SumOf(upto, f) == SumOf(a, f) + f(c[i]) by { assert upto[..i] == a; }
    assert c == upto + b;
    SumOfConcat(upto, b, f);
    SumOfConcat(a, b, f);
  }

  function Qty(l: CartLine): int { l.item.qty }

  function LineTotal(l: CartLine): int { l.item.qty * l.item.price }

  /** The badge count: the sum of the quantities. */
  function ItemCount(c: seq<CartLine>): int {
    SumOf(c, Qty)
  }

  /** The cart total: the sum of quantity times the price cached in the line. */
  function CartTotal(c: seq<CartLine>): int {
    SumOf(c, LineTotal)
  }

  /** Storing an item under a key changes the count and the total by the
      difference between the new item and the one it replaces, if any. */
  lemma PutTotals(c: Cart, pid: string, it: CartItem)
    ensures var old_ := Lookup(c, pid).GetOr(CartItem(0, 0, ""));
      ItemCount(Put(c, pid, it)) == ItemCount(c) - old_.qty + it.qty &&
      CartTotal(Put(c, pid, it)) == CartTotal(c) - old_.qty * old_.price + it.qty * it.price
  {
    var l := CartLine(pid, it);
    match IndexOf(c, pid)
    case None =>
      SumOfConcat(c, [l], Qty);
      SumOfConcat(c, [l], LineTotal);
      assert [l][..0] == [];
    case Some(i) =>
      SumOfUpdate(c, i, l, Qty);
      SumOfUpdate(c, i, l, LineTotal);
  }

  /** Deleting a key lowers the count and the total by its line, if present. */
  lemma RemoveTotals(c: Cart, pid: string)
    ensures var old_ := Lookup(c, pid).GetOr(CartItem(0, 0, ""));
      ItemCount(Remove(c, pid)) == ItemCount(c) - old_.qty &&
      CartTotal(Remove(c, pid)) == CartTotal(c) - old_.qty * old_.price
  {
    match IndexOf(c, pid)
    case None =>
    case Some(i) =>
      SumOfDrop(c, i, Qty);
      SumOfDrop(c, i, LineTotal);
  }
}
