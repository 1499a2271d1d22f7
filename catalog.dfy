/** Products and their stock (`Producto`). */
module Catalog {
  import opened Outcomes

  /** Below this many units a product in stock is labelled "Bajo stock". */
  const LowStockLimit: nat := 5

  /** What decreasing a stock level by `amount` yields: the new level, or the error raised
      when the amount exceeds the stock. */
  function Decrease(stock: nat, amount: int): (r: Result<nat>)
    ensures r.Failure? <==> stock < amount
    ensures r.Failure? ==> r.error == InsufficientStock
    ensures r.Success? ==> r.value + amount == stock
  {
    if amount > stock then Failure(InsufficientStock) else Success(stock - amount)
  }

  /** Decreasing by what was just added restores the earlier stock: the two stock
      adjustments are inverse to each other. */
  lemma DecreaseUndoesIncrease(stock: nat, amount: nat)
    ensures Decrease(stock + amount, amount) == Success(stock)
  {
  }

  class Product {
    /** The unit price in cents (a decimal with two places). */
    const price: nat
    /** The units in stock; never negative. */
    var stock: nat

    constructor (price: nat, stock: nat)
      ensures this.price == price && this.stock == stock
    {
      this.price := price;
      this.stock := stock;
    }

    /** Takes `amount` units out of stock, or fails and leaves the stock as it was. */
    method DecreaseStock(amount: int) returns (r: Outcome)
      modifies this
      ensures r.Fail? <==> old(stock) < amount
      ensures r.Fail? ==> r.error == InsufficientStock && stock == old(stock)
      ensures r.Ok? ==> Decrease(old(stock), amount) == Success(stock)
    {
      if amount > stock {
        r := Fail(InsufficientStock);
        return;
      }
      stock := stock - amount;
      r := Ok;
    }

    /** Puts `amount` units back into stock; there is no upper bound. */
    method IncreaseStock(amount: nat)
      modifies this
      ensures stock == old(stock) + amount
    {
      stock := stock + amount;
    }

    /** The stock label: out of stock, low stock (1 to 4 units) or available (5 or more).
        Every stock level gets exactly one of the three. */
    function StockState(): (state: string)
      reads this
      ensures state == "Agotado" <==> stock == 0
      ensures state == "Bajo stock" <==> 0 < stock < LowStockLimit
      ensures state == "Disponible" <==> LowStockLimit <= stock
    {
      if stock == 0 then "Agotado"
      else if stock < LowStockLimit then "Bajo stock"
      else "Disponible"
    }
  }
}
