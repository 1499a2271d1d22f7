/** Two worked runs of the cart, proved from the operations' contracts alone. */
module Scenarios {
  import opened Outcomes
  import opened Catalog
  import opened CartLines
  import opened Carts

  /** Ten in stock; adding five reserves them; adding six more is refused with five
      available, and nothing changes. */
  method OversellIsRefused()
  {
    var p := new Product(1250, 10);
    var cart := new Cart();
    var r := cart.AddProduct(p, 5);
    assert r == Ok;
    assert p.stock == 5 && Held(cart.items, p) == 5;
    assert cart.Total() == 5 * 1250;
    var items := cart.items;
    r := cart.AddProduct(p, 6);
    assert r == Fail(ExceedsAvailable(5));
    assert p.stock == 5 && cart.items == items;
  }

  /** Three in stock; adding all three empties the stock; removing the product brings all
      three back and deletes the row; clearing the empty cart then changes no stock. */
  method FullRemovalRestoresStock()
  {
    var p := new Product(399, 3);
    var cart := new Cart();
    var r := cart.AddProduct(p, 3);
    assert r == Ok && p.stock == 0 && p.StockState() == "Agotado";
    cart.RemoveProduct(p, None);
    assert p.stock == 3 && Find(cart.items, p).None?;
    assert p.StockState() == "Bajo stock";
    cart.Clear();
    assert p.stock == 3;
  }
}
