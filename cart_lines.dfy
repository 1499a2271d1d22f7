/** The rows of a cart (`ItemCarrito`): one row per product held, with its quantity. A cart's
    rows are a sequence, newest first, as the rows are listed by descending creation time. */
module CartLines {
  import opened Outcomes
  import opened Catalog

  /** One row: a product and how many units of it the cart holds. */
  datatype Item = Item(product: Product, quantity: nat)

  /** The row's price: unit price times quantity, in cents. */
  function Subtotal(item: Item): nat
  {
    item.product.price * item.quantity
  }

  function Quantity(item: Item): nat
  {
    item.quantity
  }

  /** The weight that counts only the rows of product `p`. */
  function QuantityOf(p: Product): Item -> nat
  {
    (item: Item) => if item.product == p then item.quantity else 0
  }

  /** The sum of a weight over the rows. */
  function Sum(items: seq<Item>, w: Item -> nat): nat
  {
    if items == [] then 0 else w(items[0]) + Sum(items[1..], w)
  }

  /** The cart's total price: the sum of the rows' subtotals, recomputed from the rows. */
  function Total(items: seq<Item>): nat
  {
    Sum(items, Subtotal)
  }

  /** The number of units in the cart: the sum of the rows' quantities. */
  function ItemCount(items: seq<Item>): nat
  {
    Sum(items, Quantity)
  }

  /** The units of product `p` the rows hold. */
  function Held(items: seq<Item>, p: Product): nat
  {
    Sum(items, QuantityOf(p))
  }

  /** No two rows are for the same product (one row per cart and product). */
  predicate Distinct(items: seq<Item>)
  {
    forall i, j :: 0 <= i < j < |items| ==> items[i].product != items[j].product
  }

  /** Every row holds at least one unit. */
  predicate Positive(items: seq<Item>)
  {
    forall i :: 0 <= i < |items| ==> items[i].quantity > 0
  }

  predicate WellFormed(items: seq<Item>)
  {
    Distinct(items) && Positive(items)
  }

  /** The products that have a row. */
  function Products(items: seq<Item>): set<Product>
  {
    set i | 0 <= i < |items| :: items[i].product
  }

  /** The position of the row for `p`, if there is one. */
  function Find(items: seq<Item>, p: Product): (r: Option<nat>)
    ensures r.Some? ==> r.value < |items| && items[r.value].product == p
    ensures r.None? ==> forall i :: 0 <= i < |items| ==> items[i].product != p
  {
    if items == [] then None
    else if items[0].product == p then Some(0)
    else match Find(items[1..], p)
      case None => None
      case Some(k) => Some(k + 1)
  }

  // ---------------------------------------------------------------------------------------
  // Sums over rows

  lemma {:induction false} SumConcat(a: seq<Item>, b: seq<Item>, w: Item -> nat)
    ensures Sum(a + b, w) == Sum(a, w) + Sum(b, w)
  {
    if a == [] {
      assert a + b == b;
    } else {
      assert (a + b)[1..] == a[1..] + b;
      SumConcat(a[1..], b, w);
    }
  }

  /** A sum splits around any one row. */
  lemma SumSplit(items: seq<Item>, i: nat, w: Item -> nat)
    requires i < |items|
    ensures Sum(items, w) == Sum(items[..i], w) + w(items[i]) + Sum(items[i + 1..], w)
  {
    assert items == items[..i] + ([items[i]] + items[i + 1..]);
    SumConcat(items[..i], [items[i]] + items[i + 1..], w);
    SumConcat([items[i]], items[i + 1..], w);
    assert Sum([items[i]], w) == w(items[i]) by {
      assert [items[i]][1..] == [];
    }
  }

  /** Replacing one row changes a sum by the difference of the two rows' weights. */
  lemma SumUpdate(items: seq<Item>, i: nat, x: Item, w: Item -> nat)
    requires i < |items|
    ensures Sum(items[i := x], w) + w(items[i]) == Sum(items, w) + w(x)
  {
    var u := items[i := x];
    assert u[..i] == items[..i];
    assert u[i + 1..] == items[i + 1..];
    SumSplit(items, i, w);
    SumSplit(u, i, w);
  }

  /** Deleting one row takes exactly that row's weight out of a sum. */
  lemma SumRemove(items: seq<Item>, i: nat, w: Item -> nat)
    requires i < |items|
    ensures Sum(items[..i] + items[i + 1..], w) + w(items[i]) == Sum(items, w)
  {
    SumConcat(items[..i], items[i + 1..], w);
    SumSplit(items, i, w);
  }

  /** Rows with no row for `p` hold none of it. */
  lemma {:induction false} HeldAbsent(items: seq<Item>, p: Product)
    requires forall i :: 0 <= i < |items| ==> items[i].product != p
    ensures Held(items, p) == 0
  {
    if items != [] {
      assert items[0].product != p;
      HeldAbsent(items[1..], p);
    }
  }

  /** With one row per product, the units held of a product are its row's quantity. */
  lemma HeldAt(items: seq<Item>, i: nat)
    requires Distinct(items) && i < |items|
    ensures Held(items, items[i].product) == items[i].quantity
  {
    var p := items[i].product;
    SumSplit(items, i, QuantityOf(p));
    HeldAbsent(items[..i], p);
    HeldAbsent(items[i + 1..], p);
  }

  /** In well-formed rows a product has a row exactly when the cart holds some of it. */
  lemma HeldPositiveIffFound(items: seq<Item>, p: Product)
    requires WellFormed(items)
    ensures Find(items, p).Some? <==> Held(items, p) > 0
  {
    match Find(items, p)
    case None => HeldAbsent(items, p);
    case Some(i) => HeldAt(items, i);
  }

  // ---------------------------------------------------------------------------------------
  // Adding to a cart

  /** The rows after adding `q` units of `p`: the row for `p` is fetched or created; an
      existing row grows by `q`, a new one holds `q` and is the newest. */
  function AddLine(items: seq<Item>, p: Product, q: nat): seq<Item>
  {
    match Find(items, p)
    case None => [Item(p, q)] + items
    case Some(i) => items[i := Item(p, items[i].quantity + q)]
  }

  /** Adding `q` units of `p` holds exactly `q` more of `p` and leaves every other product's
      units as they were. */
  lemma AddLineHeld(items: seq<Item>, p: Product, q: nat)
    ensures Held(AddLine(items, p, q), p) == Held(items, p) + q
    ensures forall other :: other != p ==> Held(AddLine(items, p, q), other) == Held(items, other)
  {
    match Find(items, p)
    case None =>
      assert [Item(p, q)][1..] == [];
      forall other ensures Held(AddLine(items, p, q), other) == QuantityOf(other)(Item(p, q)) + Held(items, other) {
        SumConcat([Item(p, q)], items, QuantityOf(other));
      }
    case Some(i) =>
      forall other {
        SumUpdate(items, i, Item(p, items[i].quantity + q), QuantityOf(other));
      }
  }

  /** Adding `q` units of `p` raises the total by `q` times the price and the unit count by `q`. */
  lemma AddLineTotals(items: seq<Item>, p: Product, q: nat)
    ensures Total(AddLine(items, p, q)) == Total(items) + p.price * q
    ensures ItemCount(AddLine(items, p, q)) == ItemCount(items) + q
  {
    match Find(items, p)
    case None =>
      assert [Item(p, q)][1..] == [];
      SumConcat([Item(p, q)], items, Subtotal);
      SumConcat([Item(p, q)], items, Quantity);
    case Some(i) =>
      var x := Item(p, items[i].quantity + q);
      SumUpdate(items, i, x, Subtotal);
      SumUpdate(items, i, x, Quantity);
      assert Subtotal(x) == Subtotal(items[i]) + p.price * q;
  }

  /** Adding a positive quantity keeps one row per product, each with some units; the rows
      grow by one exactly when `p` had none, and afterwards `p` has a row. */
  lemma AddLineWellFormed(items: seq<Item>, p: Product, q: nat)
    requires WellFormed(items) && q > 0
    ensures WellFormed(AddLine(items, p, q))
    ensures Find(AddLine(items, p, q), p).Some?
    ensures |AddLine(items, p, q)| == |items| + (if Find(items, p).None? then 1 else 0)
  {
    var r := AddLine(items, p, q);
    match Find(items, p)
    case None =>
      assert forall i :: 0 < i < |r| ==> r[i] == items[i - 1];
    case Some(i) =>
      assert forall j :: 0 <= j < |r| ==> r[j].product == items[j].product;
    AddLineHeld(items, p, q);
    HeldPositiveIffFound(r, p);
  }

  // ---------------------------------------------------------------------------------------
  // Removing from a cart

  /** Whether a removal of `quantity` empties the row holding `held` units: no quantity given,
      or one at least as large as the row. */
  predicate RemovesWholeRow(quantity: Option<nat>, held: nat)
  {
    quantity.None? || quantity.value >= held
  }

  /** The units a removal returns to stock: none without a row, the whole row when it empties
      the row, otherwise the quantity given. */
  function Released(items: seq<Item>, p: Product, quantity: Option<nat>): nat
  {
    match Find(items, p)
    case None => 0
    case Some(i) => if RemovesWholeRow(quantity, items[i].quantity) then items[i].quantity else quantity.value
  }

  /** The rows after a removal: unchanged without a row for `p`, the row deleted when the
      removal empties it, otherwise the row reduced by the quantity given. */
  function RemoveLine(items: seq<Item>, p: Product, quantity: Option<nat>): seq<Item>
  {
    match Find(items, p)
    case None => items
    case Some(i) =>
      if RemovesWholeRow(quantity, items[i].quantity) then items[..i] + items[i + 1..]
      else items[i := Item(p, items[i].quantity - quantity.value)]
  }

  /** A removal takes from the rows exactly the units it releases, and only units of `p`. */
  lemma RemoveLineHeld(items: seq<Item>, p: Product, quantity: Option<nat>)
    ensures Held(RemoveLine(items, p, quantity), p) + Released(items, p, quantity) == Held(items, p)
    ensures forall other :: other != p ==> Held(RemoveLine(items, p, quantity), other) == Held(items, other)
  {
    match Find(items, p)
    case None =>
    case Some(i) =>
      if RemovesWholeRow(quantity, items[i].quantity) {
        forall other {
          SumRemove(items, i, QuantityOf(other));
        }
      } else {
        forall other {
          SumUpdate(items, i, Item(p, items[i].quantity - quantity.value), QuantityOf(other));
        }
      }
  }

  /** A removal lowers the total by the released units times the price and the unit count by
      the released units. */
  lemma RemoveLineTotals(items: seq<Item>, p: Product, quantity: Option<nat>)
    ensures Total(RemoveLine(items, p, quantity)) + p.price * Released(items, p, quantity) == Total(items)
    ensures ItemCount(RemoveLine(items, p, quantity)) + Released(items, p, quantity) == ItemCount(items)
  {
    match Find(items, p)
    case None =>
    case Some(i) =>
      if RemovesWholeRow(quantity, items[i].quantity) {
        SumRemove(items, i, Subtotal);
        SumRemove(items, i, Quantity);
      } else {
        var x := Item(p, items[i].quantity - quantity.value);
        SumUpdate(items, i, x, Subtotal);
        SumUpdate(items, i, x, Quantity);
        assert Subtotal(x) + p.price * quantity.value == Subtotal(items[i]);
      }
  }

  /** The three cases of a removal on well-formed rows: without a row nothing changes; a
      removal that empties the row deletes it; a smaller one keeps the row, reduced by exactly
      the quantity given. The rows stay well-formed. */
  lemma RemoveLineCases(items: seq<Item>, p: Product, quantity: Option<nat>)
    requires WellFormed(items)
    ensures WellFormed(RemoveLine(items, p, quantity))
    ensures Find(items, p).None? ==> RemoveLine(items, p, quantity) == items && Released(items, p, quantity) == 0
    ensures Find(items, p).Some? && RemovesWholeRow(quantity, Held(items, p)) ==>
              Find(RemoveLine(items, p, quantity), p).None? && Released(items, p, quantity) == Held(items, p)
    ensures Find(items, p).Some? && !RemovesWholeRow(quantity, Held(items, p)) ==>
              Find(RemoveLine(items, p, quantity), p).Some? && Released(items, p, quantity) == quantity.value
              && Held(RemoveLine(items, p, quantity), p) == Held(items, p) - quantity.value
  {
    var r := RemoveLine(items, p, quantity);
    match Find(items, p)
    case None =>
    case Some(i) =>
      HeldAt(items, i);
      if RemovesWholeRow(quantity, items[i].quantity) {
        assert forall j :: 0 <= j < |r| ==> r[j] == (if j < i then items[j] else items[j + 1]);
      } else {
        assert forall j :: 0 <= j < |r| ==> r[j].product == items[j].product;
      }
      RemoveLineHeld(items, p, quantity);
      HeldPositiveIffFound(r, p);
  }

  // ---------------------------------------------------------------------------------------
  // The write-time check of a row

  /** The units a row may hold when it is stored: the product's current stock, plus the
      quantity already stored for the row when it is an update. */
  function Allowance(stock: nat, stored: Option<nat>): nat
  {
    stock + (if stored.Some? then stored.value else 0)
  }

  /** The check made before a row is written: its quantity must not exceed the allowance. */
  function SaveGuard(quantity: int, stock: nat, stored: Option<nat>): (r: Outcome)
    ensures r.Ok? <==> quantity <= Allowance(stock, stored)
    ensures r.Fail? ==> r.error == ExceedsMaximum(Allowance(stock, stored))
  {
    var available := Allowance(stock, stored);
    if quantity > available then Fail(ExceedsMaximum(available)) else Ok
  }

  /** The write check that adding `q` units of `p` triggers, made before the stock is
      decreased: a new row is checked against the stock alone, a grown row against the stock
      plus what it held. */
  function AddSaveCheck(items: seq<Item>, p: Product, stock: nat, q: nat): Outcome
  {
    match Find(items, p)
    case None => SaveGuard(q, stock, None)
    case Some(i) => SaveGuard(items[i].quantity + q, stock, Some(items[i].quantity))
  }

  /** On the add path the write check passes exactly when the quantity added is within the
      stock, so it never stops an add that passed the add's own stock check. */
  lemma AddSaveCheckAgrees(items: seq<Item>, p: Product, stock: nat, q: nat)
    ensures AddSaveCheck(items, p, stock, q).Ok? <==> q <= stock
  {
  }

  /** On a partial removal the reduced row is written after its `c` units went back to stock;
      that write check always passes. */
  lemma ReduceSaveCheckPasses(held: nat, stock: nat, c: nat)
    requires c < held
    ensures SaveGuard(held - c, stock + c, Some(held)) == Ok
  {
  }
}
