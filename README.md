# Shopping cart model

This project models the shopping cart of `OOP/index.js` in Dafny. A `Product` has an id, a name and a price. A cart entry (`ShoppingCartItem`) pairs a product with a quantity. A `ShoppingCart` keeps an ordered list of entries, and its operations change that list in place:

- `addItem(product, quantity = 1)` finds the first entry with the same product id. If there is one, it raises that entry's quantity. Otherwise it appends a new entry.
- `removeItem(productId, quantity = null)` finds the first entry with the id. If there is none, it returns `false`. With no quantity, or with a quantity at least the entry's own, it deletes the entry. Otherwise it subtracts the amount from the entry's quantity. In both cases it returns `true`.
- `getTotalItems()` sums the quantities of all entries.

The model is split into two files:

- `wrappers.dfy` holds `Option`. `None` stands for the omitted `quantity` of `removeItem` (JavaScript `null`).
- `cart.dfy` (module `Cart`) has four parts:
  - the datatypes `Product` and `Item`;
  - pure functions for the operations' effects on an entry list: `IndexOf` (the `find`/`findIndex` search, -1 when absent), `TotalItems`, `AfterAdd` and `AfterRemove`;
  - lemmas about those functions;
  - the class `ShoppingCart`, whose `items: seq<Item>` field is reassigned by the methods `AddItem` and `RemoveItem`, and whose function `GetTotalItems` reads it.

The JavaScript default `quantity = 1` of `addItem` and of the `ShoppingCartItem` constructor is the constant `DefaultQuantity`, which callers pass when they omit the quantity. The method `Demonstration` replays the scenario of `OOP/test.js`. It checks the resulting entries and totals using only the class's contracts.

The source validates no quantity, and the model keeps it that way:

- quantities may be zero or negative;
- `removeItem(id, 0)` on an entry holding units returns `true` and changes nothing;
- a negative removal amount raises the quantity of an entry that holds more than that amount; an entry at or below it is deleted.

The comment at OOP/index.js:44 says `removeItem` "returns true if something was removed". The code returns `true` whenever an entry has the id, even when the amount is 0 and nothing is removed. The model follows the code, not the comment: `RemoveItem` ensures `removed == HasId(old(items), productId)`.

Positivity appears only as a hypothesis of the lemmas that need it. When `addItem` meets an existing entry, that entry keeps its own product record (name and price), and the product passed in is dropped. `AddExisting` states this.

## Model

| member | source | states |
|---|---|---|
| `Cart.IndexOf` | OOP/index.js:36 | the first entry with the product id, or -1 exactly when no entry has that id |
| `Cart.IndexOfUnique` | OOP/index.js:46 | when ids are unique, the search returns the one entry that has the id |
| `Cart.TotalItemsConcat` | OOP/index.js:30-32 | the total of two entry lists joined is the sum of their totals, so the fold is a plain sum of quantities |
| `Cart.TotalItemsUpdate` | OOP/index.js:30-32 | replacing one entry changes the total by the difference of the old and new quantities |
| `Cart.TotalItemsDelete` | OOP/index.js:30-32 | deleting one entry lowers the total by exactly that entry's quantity |
| `Cart.AddExisting` | OOP/index.js:36-38 | for an id already present, that entry gains `quantity` units and keeps its product; the entry count and all other entries are unchanged |
| `Cart.AddNew` | OOP/index.js:39-40 | for an id not present, exactly one entry `(product, quantity)` is appended at the end and earlier entries are unchanged |
| `Cart.AddTotal` | OOP/index.js:35-42 | adding raises the total by exactly `quantity`, in both branches |
| `Cart.AddKeepsIdsUnique` | OOP/index.js:35-42 | adding keeps product ids unique |
| `Cart.AddKeepsPositive` | OOP/index.js:35-42 | adding a positive quantity keeps every entry positive |
| `Cart.RemoveMissing` | OOP/index.js:46-47 | removing an id that no entry has leaves the entries unchanged |
| `Cart.RemoveWhole` | OOP/index.js:49-51 | with no quantity, or one at least the entry's own, that entry is deleted, the rest keep their order, and the total drops by its quantity |
| `Cart.RemovePartial` | OOP/index.js:52-55 | with an amount below the entry's quantity, the entry stays in place with that many fewer units, others are unchanged, and the total drops by exactly that amount |
| `Cart.RemoveKeepsIdsUnique` | OOP/index.js:45-57 | removing keeps product ids unique |
| `Cart.RemoveKeepsPositive` | OOP/index.js:49-55 | removing never leaves an entry without units, whatever amount is given |
| `Cart.RemoveUndoesAddExisting` | OOP/index.js:36-38 | for a product whose entry holds at least one unit, removing the amount just added restores the previous entries |
| `Cart.RemoveUndoesAddNew` | OOP/index.js:39-40 | for a product not in the cart, removing the amount just added deletes the appended entry and restores the previous entries |
| `Cart.RemoveUndoesAdd` | OOP/index.js:35-57 | when the product's existing entry, if any, holds at least one unit, removing the amount just added with `addItem` restores the previous entries, both for a new entry and for an existing one |
| `Cart.ShoppingCart.constructor` | OOP/index.js:25-27 | a new cart has no entries |
| `Cart.ShoppingCart.AddItem` | OOP/index.js:35-42 | the new entries are the add transformation of the old ones; the total rises by `quantity`; unique ids stay unique |
| `Cart.ShoppingCart.RemoveItem` | OOP/index.js:45-57 | the result is `true` exactly when an entry had the id; the new entries are the remove transformation of the old ones; the total is unchanged, drops by the entry's quantity, or drops by the amount, according to the branch taken; unique ids stay unique |

## Left out

- `displayItems` (OOP/index.js:60-75) is left out. It is console output and `toFixed` string formatting.
- `ShoppingCartItem.totalPrice` and the cart's price total (OOP/index.js:18-20, 73) are left out. They are floating-point price arithmetic. `Product.price` is kept as an integer number of cents that no operation reads.
- JavaScript numbers are IEEE doubles. Ids and quantities are modelled as unbounded integers, so rounding and loss of precision beyond 2^53 are not modelled.
- The entries are values inside the cart's sequence, so JavaScript object aliasing is not modelled. For example, a caller holding a reference to an entry would see `quantity +=` change it.
- Ids are compared as integers. JavaScript `===` between values of different types (a string id against a number) is not modelled.
- The `module.exports` and `require` plumbing, and the console output of `OOP/test.js`, are left out.
- The other programs in the repository, including the task scheduler in `Optimizing Task Scheduling System/scheduler.js`, are not part of this model.
