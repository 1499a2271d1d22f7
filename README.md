# Inventory reservation in a small online store

This project models the stock and cart bookkeeping of a Django store (`carrito/models.py`)
and proves its invariants. A product (`Producto`) has a stock count and a price. Each user
has a cart (`Carrito`) made of rows (`ItemCarrito`), with at most one row per product.
Adding to the cart moves units from the product's stock into the cart. Removing and
clearing move them back. A row is checked against stock when it is written.

The Dafny modules follow the three model classes:

- `Outcomes`: the errors the model layer raises, as `Fail` values. `Error` has one
  constructor per raise site, since every raise in the source is a `ValueError`.
- `Catalog`: `Producto` as class `Product`. It has a mutable `stock: nat` and a constant
  `price` in cents (the price is a decimal with two places).
- `CartLines`: `ItemCarrito` rows as `Item(product, quantity)` values. It holds the pure
  functions over a cart's rows (subtotal, total, unit count, units held per product,
  lookup), the effect of add and remove on the rows, and the write-time check of
  `ItemCarrito.save`.
- `Carts`: `Carrito` as class `Cart`, whose `items: seq<Item>` field the methods reassign.
  Rows are listed newest first, following the model's `-agregado` ordering.
- `Scenarios`: two client runs (oversell refused; full removal restores stock), proved
  from the contracts alone.

Products are identified by object identity, so `Distinct(items)` gives the
one-row-per-(cart, product) rule. Every cart method keeps `Valid()`: one row per
product, and each row holds at least one unit. For every product, each cart method keeps
stock plus the units held in that cart unchanged. That conservation holds only while
rows are written through these methods.

`Cart.Total` and `Cart.ItemCount` are the row sums `CartLines.Total` and
`CartLines.ItemCount`, recomputed from the rows on every call. They carry no contract
of their own. The add and remove lemmas and the methods' postconditions state how they
change.

Notes on how the source behaves:

- It has no separate error classes, only `ValueError`s with different messages. These
  are modelled as distinct `Error` constructors.
- Clearing walks the rows listed when it starts, once. It does not repeat until empty.
- In a partial removal, the "delete when nothing is left" branch cannot be reached.
  `RemoveProduct` proves it dead.
- Price positivity exists only as a form validator and is not enforced on write. The
  model takes the price as a `nat` of cents, so it leaves negative prices out.

## Model

| member | source | states |
|---|---|---|
| `Catalog.Decrease` | carrito/models.py:51-56 | decreasing fails, with the insufficient-stock error, exactly when the amount exceeds the stock; otherwise the new stock plus the amount is the old stock, so it is never negative |
| `Catalog.Product.DecreaseStock` | carrito/models.py:51-56 | fails iff the amount exceeds the stock, and then leaves the stock unchanged; otherwise the stock becomes what `Decrease` gives |
| `Catalog.Product.IncreaseStock` | carrito/models.py:58-61 | the stock grows by exactly the amount; the product's price cannot change |
| `Catalog.DecreaseUndoesIncrease` | carrito/models.py:51-61 | decreasing by the amount just added restores the earlier stock |
| `Catalog.Product.StockState` | carrito/models.py:63-70 | "Agotado" iff stock is 0, "Bajo stock" iff it is 1 to 4, "Disponible" iff it is 5 or more; exactly one applies |
| `CartLines.Find` | carrito/models.py:121-124 | returns the position of the row for the product when there is one, and none only when no row is for it |
| `CartLines.HeldAt` | carrito/models.py:164-167 | with one row per product, the units a cart holds of a product are its row's quantity |
| `CartLines.HeldPositiveIffFound` | carrito/models.py:157-160 | in well-formed rows a product has a row iff the cart holds at least one unit of it |
| `CartLines.AddLineHeld` | carrito/models.py:108-116 | adding q units of a product raises its held units by exactly q and leaves every other product's held units unchanged |
| `CartLines.AddLineTotals` | carrito/models.py:92-98 | after an add, the totals recomputed from the rows are the old total plus q times the price, and the old unit count plus q |
| `CartLines.AddLineWellFormed` | carrito/models.py:108-116 | an add keeps one row per product with positive quantities, adds a row only when the product had none, and leaves a row for it |
| `CartLines.RemoveLineHeld` | carrito/models.py:121-137 | a removal takes from the cart exactly the units it releases, and only units of that product |
| `CartLines.RemoveLineTotals` | carrito/models.py:121-137 | after a removal, the recomputed total falls by the released units times the price and the unit count by the released units |
| `CartLines.RemoveLineCases` | carrito/models.py:121-137 | with no row, a removal changes nothing and releases nothing; with no quantity or one covering the row, it deletes the row and releases all of it; otherwise it keeps the row, reduced by exactly the quantity, which it releases |
| `CartLines.SaveGuard` | carrito/models.py:181-191 | a row write passes iff its quantity is at most the stock plus the row's stored quantity when updating; otherwise it fails reporting that maximum |
| `CartLines.AddSaveCheckAgrees` | carrito/models.py:105-116 | on the add path, the write check passes iff the added quantity is within the stock, so it never refuses an add that passed the add's own check |
| `CartLines.ReduceSaveCheckPasses` | carrito/models.py:129-134 | a partial removal's write of the reduced row always passes the check |
| `Carts.AddValidation` | carrito/models.py:100-106 | an add is accepted iff 0 < quantity <= stock; a non-positive quantity fails as invalid; an excessive one fails reporting the stock |
| `Carts.Cart.AddProduct` | carrito/models.py:100-119 | the result is the validation's; on failure nothing changes; on success the rows become `AddLine` of the old rows, the product's stock drops by the quantity, its held units rise by it, and the total rises by quantity times price; for every product, stock plus held units is unchanged; rows stay one per product |
| `Carts.Cart.RemoveProduct` | carrito/models.py:121-137 | the rows become `RemoveLine` of the old rows and the stock rises by exactly the released units; with no row, nothing changes; the total falls by the released units times the price; for every product, stock plus held units is unchanged |
| `Carts.Cart.Clear` | carrito/models.py:139-144 | afterwards the cart has no rows and every product's stock has risen by the units the cart held of it, so on an empty cart no stock changes |
| `Carts.PartialRemovalAsWritten` | carrito/models.py:128-134 | the partial-removal branch as written, for any integer quantity below the row's: for a non-negative quantity it returns exactly that many units to stock and keeps the rest in the row; whenever it raises no error, stock plus row is unchanged |
| `Carts.NegativePartialRemovalLosesUnits` | carrito/models.py:125-134 | a negative quantity c with stock + c >= 0 and stock < -2c leaves the stock lowered by -c and the row unchanged, and raises an error, so stock plus held units falls |

## Left out

- Views, admin site, URL routing, forms and the seed command are not part of this model.
  Only some views delegate cart changes to the model methods: carrito/views.py:115, 123,
  136, 218 and 236. `agregar_al_carrito` (carrito/views.py:71-99) does not. It creates
  and grows rows itself and never lowers stock. Stock plus held units is therefore not
  conserved for rows that view writes. Removing or clearing such rows later returns
  units to stock that it never gave up.
- Persistence itself is left out: row writes, deletes, `save()` on the product and the
  cart, cascade deletes, and the unique-together constraint as a storage rule. The
  write-time check of `ItemCarrito.save` is modelled as `SaveGuard`. The cart's
  `save()`, which only touches the update timestamp, is left out too.
- Timestamps, images, the creating user, the cart's owning user, permissions metadata
  and `__str__` are left out. They do not affect stock.
- Concurrency and atomicity are left out. Each operation is one sequential step. In the
  source, the product instance a caller holds may differ from the stored one, and the
  model treats them as the same.
- Catalog.Product.IncreaseStock: the amount is a `nat`. A negative amount that would
  take the stock below zero is refused by the stock column, and that behaviour is not
  modelled. Every caller in the core passes a non-negative amount, except the partial
  branch of `remover_producto` (carrito/models.py:129). Its negative quantities are
  modelled by `PartialRemovalAsWritten`.
- Carts.Cart.RemoveProduct: the quantity is an `Option<nat>`. The views only ever pass
  no quantity. The source's behaviour for a negative quantity is modelled separately
  by `PartialRemovalAsWritten` (see Findings).
- Validators are left out: the minimum price of 0.01, the ten-digit price limit and the
  minimum row quantity of 1. Django runs these in form validation, not when a model is
  written. The price is an unbounded `nat` of cents, and negative prices, which a
  decimal column accepts on write, are left out. Row positivity is kept as the cart's
  invariant instead.
- The default quantity of 1 for adding is not a separate operation. Callers pass the
  quantity.

## Findings

| source | as written | input that shows it | evidently intended | confidence | as-written member | corrected member |
|---|---|---|---|---|---|---|
| carrito/models.py:128-134 | a removal with a quantity below the row's writes the raised stock first, then writes the reduced row through the write-time check; a negative quantity lowers the stock, and the check can then raise, leaving the row as it was | stock 10, a row of 2 units, removal quantity -6: stock becomes 4, the row stays at 2, and an error is raised, so 6 units leave stock plus cart | a removal never takes units out of stock plus cart; a negative quantity is rejected as adding rejects one | medium, not executed | `Carts.NegativePartialRemovalLosesUnits` | `Carts.Cart.RemoveProduct` |
