/** A user's shopping cart (`Carrito`) and the stock it reserves. Adding moves units from a
    product's stock into the cart's rows, removing and clearing move them back. */
module Carts {
  import opened Outcomes
  import opened Catalog
  import opened CartLines

  /** The checks made before an add touches anything: the quantity must be positive and
      within the product's stock. */
  function AddValidation(stock: nat, quantity: int): (r: Outcome)
    ensures r.Ok? <==> 0 < quantity <= stock
    ensures quantity <= 0 ==> r == Fail(NonPositiveQuantity)
    ensures 0 < quantity && stock < quantity ==> r == Fail(ExceedsAvailable(stock))
  {
    if quantity <= 0 then Fail(NonPositiveQuantity)
    else if quantity > stock then Fail(ExceedsAvailable(stock))
    else Ok
  }

  class Cart {
    /** The cart's rows, newest first. */
    var items: seq<Item>

    ghost predicate Valid()
      reads this
    {
      WellFormed(items)
    }

    constructor ()
      ensures Valid() && items == []
    {
      items := [];
    }

    /** The total price, in cents, recomputed from the rows on every call. */
    function Total(): nat
      reads this
    {
      CartLines.Total(items)
    }

    /** The number of units in the cart, recomputed from the rows on every call. */
    function ItemCount(): nat
      reads this
    {
      CartLines.ItemCount(items)
    }

    /** Adds `quantity` units of `p`: validates first and changes nothing on failure;
        otherwise the row for `p` is created or grows by `quantity`, and `p`'s stock drops
        by `quantity`. Units in stock plus units in this cart stay the same for every product. */
    method AddProduct(p: Product, quantity: int) returns (r: Outcome)
      requires Valid()
      modifies this, p
      ensures Valid()
      ensures r == AddValidation(old(p.stock), quantity)
      ensures r.Fail? ==> items == old(items) && p.stock == old(p.stock)
      ensures r.Ok? ==> items == AddLine(old(items), p, quantity) && p.stock == old(p.stock) - quantity
      ensures r.Ok? ==> Held(items, p) == old(Held(items, p)) + quantity
      ensures r.Ok? ==> Total() == old(Total()) + p.price * quantity && ItemCount() == old(ItemCount()) + quantity
      ensures forall other: Product | old(allocated(other)) :: other.stock + Held(items, other) == old(other.stock + Held(items, other))
    {
      r := AddValidation(p.stock, quantity);
      if r.Fail? {
        return;
      }
      ghost var before := items;
      // get_or_create: the row is written before the stock is decreased, and each write runs
      // the write-time check, which passes here.
      AddSaveCheckAgrees(items, p, p.stock, quantity);
      match Find(items, p) {
        case None =>
          assert SaveGuard(quantity, p.stock, None).Ok?;
          items := [Item(p, quantity)] + items;
        case Some(i) =>
          var grown := items[i].quantity + quantity;
          assert SaveGuard(grown, p.stock, Some(items[i].quantity)).Ok?;
          items := items[i := Item(p, grown)];
      }
      var decreased := p.DecreaseStock(quantity);
      assert decreased.Ok?;
      AddLineHeld(before, p, quantity);
      AddLineTotals(before, p, quantity);
      AddLineWellFormed(before, p, quantity);
    }

    /** Removes units of `p`: nothing happens when the cart has no row for `p`; with no
        quantity, or one covering the row, the row is deleted and all its units go back to
        stock; otherwise exactly `quantity` units go back and the row keeps the rest.
        Units in stock plus units in this cart stay the same for every product. */
    method RemoveProduct(p: Product, quantity: Option<nat>)
      requires Valid()
      modifies this, p
      ensures Valid()
      ensures items == RemoveLine(old(items), p, quantity)
      ensures p.stock == old(p.stock) + Released(old(items), p, quantity)
      ensures old(Find(items, p)).None? ==> items == old(items) && p.stock == old(p.stock)
      ensures Total() + p.price * Released(old(items), p, quantity) == old(Total())
      ensures forall other: Product | old(allocated(other)) :: other.stock + Held(items, other) == old(other.stock + Held(items, other))
    {
      ghost var before := items;
      match Find(items, p) {
        case None =>
          // a missing row is not an error
        case Some(i) =>
          var item := items[i];
          if quantity.None? || quantity.value >= item.quantity {
            p.IncreaseStock(item.quantity);
            items := items[..i] + items[i + 1..];
          } else {
            p.IncreaseStock(quantity.value);
            var left := item.quantity - quantity.value;
            if left <= 0 {
              assert false;  // the quantity is below the row's, so something is left
            } else {
              ReduceSaveCheckPasses(item.quantity, p.stock - quantity.value, quantity.value);
              assert SaveGuard(left, p.stock, Some(item.quantity)).Ok?;
              items := items[i := Item(p, left)];
            }
          }
      }
      RemoveLineHeld(before, p, quantity);
      RemoveLineTotals(before, p, quantity);
      RemoveLineCases(before, p, quantity);
    }

    /** Empties the cart, row by row in the order the rows are listed, returning each row's
        units to its product's stock. On an empty cart no stock changes, so clearing twice is
        the same as clearing once. */
    method Clear()
      requires Valid()
      modifies this, Products(items)
      ensures Valid() && items == []
      ensures forall other: Product | old(allocated(other)) :: other.stock == old(other.stock) + old(Held(items, other))
    {
      var pending := items;
      var k := 0;
      while k < |pending|
        invariant 0 <= k <= |pending|
        invariant items == pending[k..]
        invariant forall other: Product | old(allocated(other)) :: other.stock == old(other.stock) + Held(pending[..k], other)
      {
        var item := pending[k];
        assert item.product in Products(pending);
        item.product.IncreaseStock(item.quantity);
        items := items[1..];
        forall other: Product
          ensures Held(pending[..k + 1], other) == Held(pending[..k], other) + QuantityOf(other)(item)
        {
          assert pending[..k + 1] == pending[..k] + [item];
          SumConcat(pending[..k], [item], QuantityOf(other));
          assert [item][1..] == [];
        }
        k := k + 1;
      }
      assert pending[..k] == pending;
    }
  }

  // ---------------------------------------------------------------------------------------
  // Partial removal with a negative quantity, as the source is written

  /** The partial branch of a removal exactly as written, for any integer quantity `c` below
      the row's `held` units, on a product with `stock` units: the stock afterwards, the row's
      quantity afterwards, and whether an error escaped. The stock is written first; a
      negative result is refused by the stock column and nothing is written; otherwise the
      reduced row is written through the write-time check, which may refuse it after the
      stock was already written. For a non-negative quantity this is the corrected removal:
      `c` units go back and the row keeps the rest; whenever no error escapes, stock plus
      row is unchanged. */
  function PartialRemovalAsWritten(stock: nat, held: nat, c: int): (r: (int, int, bool))
    requires c < held
    ensures 0 <= c ==> r == (stock + c, held - c, false)
    ensures !r.2 ==> r.0 + r.1 == stock + held
  {
    var raised := stock + c;
    if raised < 0 then (stock, held, true)
    else if SaveGuard(held - c, raised, Some(held)).Fail? then (raised, held, true)
    else (raised, held - c, false)
  }

  /** A negative quantity large enough against the stock makes the removal raise after the
      stock was lowered and before the row grew: units vanish from stock plus cart. */
  lemma NegativePartialRemovalLosesUnits(stock: nat, held: nat, c: int)
    requires c < 0 && 0 <= stock + c && stock < -2 * c
    ensures PartialRemovalAsWritten(stock, held, c) == (stock + c, held, true)
    ensures PartialRemovalAsWritten(stock, held, c).0 + PartialRemovalAsWritten(stock, held, c).1 < stock + held
  {
  }

  /** The concrete case: 10 units in stock, a row of 2, and a quantity of -6 leave 4 units in
      stock and the row at 2, with an error raised. */
  lemma NegativePartialRemovalExample()
    ensures PartialRemovalAsWritten(10, 2, -6) == (4, 2, true)
  {
    NegativePartialRemovalLosesUnits(10, 2, -6);
  }
}
