# Store inventory engine in Dafny

This project models the inventory engine of the console store in `Store/Program.cs`:

- products of two variants: packaged goods counted in units and bulk goods weighed;
- `ProductCollection`, which merges an equal product into its entry on `Add`, subtracts
  on `Remove` and evicts an entry that reaches zero;
- the `Store`, a dictionary from category name to collection;
- the customer's `ShoppingCart`, `Customer` with its balance, and `CashRegister.ProcessPayment`.

Files:

- `products.dfy` (module `Products`): the `Product` datatype, its logical `Key` (variant, Id,
  Name, Category), `Equals` and `CalculatePrice`.
- `collections.dfy` (module `Collections`): `ProductCollection`, a class over a
  `seq<Product>`. Its methods are proved against the functions `Added` and `RemoveFrom`.
  Lemmas relate those functions to a bag view of the list:
  - `AmountOf(s, k)`: how much of key `k` the list holds;
  - `Others(s, k)`: the entries of the other keys, in order;
  - `KeysOf(s)`: the keys held;
  - `Total(s)`: the summed price.
- `store.dfy` (module `Stores`): the `Store` class. It holds the category collections and a
  ghost copy of their contents. Its methods are proved against `StoreAdded`, `StoreRemoved`
  and `Flatten`.
- `carts.dfy` (module `Carts`): `ShoppingCart`, proved against `CartCopy` and `TakeFromCart`.
- `checkout.dfy` (module `Checkout`): `Customer` and `CashRegister`. The checkout's removal
  loop is proved against `RemoveEach`.

Modelling choices:

- `decimal` prices and balances, and `double` weights, are exact `real`s.
- Quantities are unbounded `int`s.
- A `StoreException` is modelled as a value: `RemoveStatus.OverRemoval` for a collection, and
  `raised` for the store and the checkout.
- The store singleton `Store.Instance` is passed to `ProcessPayment` as a parameter.
- The dictionary is modelled as a map plus the list of category names in creation order.
  Categories are never removed, so in the .NET implementation that is the order in which the
  dictionary enumerates them; .NET documents that order as unspecified, so the model assumes it.

Behaviour of the code that the model follows:

- `Equals` compares runtime types. So a product of the other variant with the same Id, Name
  and Category is appended as a new entry.
- A remove of the other variant returns false.
- `Contains` is variant-aware for the same reason.
- `ProcessPayment` has no early exit on a zero total. It runs these steps in order:
  1. compute the total;
  2. `Pay`;
  3. add the total to the revenue, even when `Pay` declined;
  4. remove each cart entry from the store, where an exception may escape part-way;
  5. clear the cart.

## Model

| member | source | states |
|---|---|---|
| Products.Equals | Store/Program.cs:36-46 | two products are equal exactly when they have the same variant, Id, Name and Category; price and amount play no part |
| Products.CalculatePrice | Store/Program.cs:75-110 | the price of either variant: its measured amount times its unit price; CalculatePriceByVariant states the two overrides |
| Products.CalculatePriceByVariant | Store/Program.cs:75-110 | the price is Quantity times Price for a packaged product and Weight times Price for a bulk one; nothing measured costs nothing |
| Products.Merged | Store/Program.cs:140-147 | the merged entry keeps its key and its own price, and its amount is the sum of both amounts |
| Products.MergedPrice | Store/Program.cs:140-147 | merging raises the entry's price by the item's amount at the entry's unit price |
| Products.Deducted | Store/Program.cs:166-195 | the deducted entry keeps its key and price, and its amount is the entry's minus the item's |
| Products.DeductedPrice | Store/Program.cs:166-195 | deducting lowers the entry's price by the item's amount at the entry's unit price |
| Products.Lowered | Store/Program.cs:381-418 | the cart's decrement keeps key and price and lowers the amount by exactly n |
| Products.Truncate | Store/Program.cs:357 | the `(int)` cast truncates toward zero: the result lies within one of the argument, on the zero side |
| Collections.FirstMatch | Store/Program.cs:134 | the index found holds an equal entry and no earlier entry is equal; None means no entry is equal |
| Collections.Added | Store/Program.cs:131-154 | Add on the entries: the entry count is kept (a merge) or the item is appended at the end; AddedKeys, AddedAmounts, AddedOthers and AddedTotal state the rest |
| Collections.RemoveFrom | Store/Program.cs:157-201 | Remove on the entries: when it returns false or throws, the entries are unchanged; RemoveOutcome, RemovedAmounts and RemovedEntry state the rest |
| Collections.FirstMatchKeys | Store/Program.cs:210-213 | an equal entry exists exactly when the item's key is held |
| Collections.UniqueKeysCount | Store/Program.cs:127 | with one entry per key, the entry count is the number of keys held |
| Collections.AddedUnique | Store/Program.cs:131-154 | Add keeps at most one entry per key |
| Collections.AddedKeys | Store/Program.cs:131-154 | after Add the item's key is held; the count grows by one exactly when the key was new |
| Collections.AddedAmounts | Store/Program.cs:131-154 | Add raises the amount of the item's key by the item's amount; every other key keeps its amount |
| Collections.AddedOthers | Store/Program.cs:131-154 | Add leaves the entries of every other key unchanged and in order |
| Collections.AddedTotal | Store/Program.cs:131-154 | Add raises the total by the item's amount at the price the existing entry keeps, or at the item's own price when appended |
| Collections.RemoveOutcome | Store/Program.cs:157-201 | Remove returns false exactly when no entry is equal; it throws exactly when more than is held is asked for; in both cases nothing changes |
| Collections.RemovedAmounts | Store/Program.cs:157-201 | a successful Remove lowers the amount of the item's key by exactly the item's amount; other entries keep their values and order |
| Collections.RemovedEntry | Store/Program.cs:173-197 | a successful Remove never leaves a negative amount; it evicts the entry exactly when zero is left; it keeps one entry per key |
| Collections.RemovedTotal | Store/Program.cs:157-201 | a successful Remove lowers the total by the item's amount at the entry's price |
| Collections.ProductCollection.constructor | Store/Program.cs:124 | a new collection is empty |
| Collections.ProductCollection.Count | Store/Program.cs:127 | Count is the number of keys held |
| Collections.ProductCollection.Contains | Store/Program.cs:210-213 | Contains holds exactly when the item's key (variant included) is held |
| Collections.ProductCollection.Add | Store/Program.cs:131-154 | the entries become Added(old entries, item) and keep one entry per key |
| Collections.ProductCollection.Remove | Store/Program.cs:157-201 | the returned status and the new entries are RemoveFrom(old entries, item); the entries keep one entry per key |
| Collections.ProductCollection.Clear | Store/Program.cs:204-207 | the collection becomes empty |
| Stores.StoreAdded | Store/Program.cs:283-293 | AddProduct on the category lists: the product goes into the list of its own category, which is created if absent; StoreAddedEffect states the effect |
| Stores.StoreRemoved | Store/Program.cs:296-302 | RemoveProduct on the category lists: the category set is kept, and when the exception escapes nothing changes |
| Stores.Flatten | Store/Program.cs:322-335 | GetAllProducts' result: the categories' entries concatenated in the given order, so it is at least as long as each listed category; FlattenKeys, FlattenUnique and FlattenCount state the rest |
| Stores.AddedFresh | Store/Program.cs:149-153 | adding a product whose key is not held appends it |
| Stores.StoreAddedStocked | Store/Program.cs:283-293 | AddProduct keeps every category with one entry per key, all of that category |
| Stores.StoreAddedEffect | Store/Program.cs:283-293 | AddProduct creates the product's category if absent; it raises that category's amount of the product's key by the product's amount; no other category changes |
| Stores.StoreRemovedStocked | Store/Program.cs:296-302 | RemoveProduct keeps every category in shape |
| Stores.StoreRemovedOutcome | Store/Program.cs:296-302 | RemoveProduct keeps the category set; it is a no-op for an unknown category or key; it throws exactly when more is asked for than is held, and then changes nothing |
| Stores.RemoveStock | Store/Program.cs:157-201 | a Remove that does not throw lowers the item's key by its amount if held and changes nothing else |
| Stores.StoreRemovedStock | Store/Program.cs:296-302 | a RemoveProduct that completes lowers the stock of a listed key by the product's amount; every other key keeps its stock and listing |
| Stores.FlattenKeys | Store/Program.cs:322-335 | the keys collected are exactly those held in the enumerated categories |
| Stores.FlattenUnique | Store/Program.cs:322-335 | flattening distinct categories merges nothing: one entry per key |
| Stores.FlattenCount | Store/Program.cs:322-335 | the flattened collection's count is the sum of the category counts |
| Stores.FlattenStep | Store/Program.cs:328-331 | each Add in the inner loop appends the next entry |
| Stores.Store.constructor | Store/Program.cs:262-267 | a new store has no categories |
| Stores.Store.AddProduct | Store/Program.cs:283-293 | the contents become StoreAdded(old contents, product); the category name is appended exactly when it is new; every existing category keeps its collection object, and a created one is fresh |
| Stores.Store.RemoveProduct | Store/Program.cs:296-302 | the exception flag and new contents are StoreRemoved(old contents, product); the categories stay the same |
| Stores.Store.GetProductCategories | Store/Program.cs:305-308 | the category names in the order the categories were created, each exactly once, exactly those the store holds |
| Stores.Store.GetProductsInCategory | Store/Program.cs:311-319 | the category's entries, or the empty list for an unknown category |
| Stores.Store.GetAllProducts | Store/Program.cs:322-335 | a fresh collection holding the concatenation of all categories in dictionary order |
| Carts.CartCopy | Store/Program.cs:355-362 | the copy has the catalog item's variant, identity and price; its amount is the request, truncated by `(int)` for packaged goods |
| Carts.TakeFromCart | Store/Program.cs:376-419 | RemoveItem on the entries: when the entry holds less than asked, the cart is unchanged; otherwise it loses at most one entry |
| Carts.AddItemEffect | Store/Program.cs:348-374 | AddItem raises the copied key by the copied amount; it leaves other keys alone; it raises the total by that amount at the cart's price for the key |
| Carts.TakeFromCartIsRemove | Store/Program.cs:376-419 | RemoveItem succeeds exactly when the collection's Remove of that amount would, so it never throws; otherwise the cart is unchanged |
| Carts.TakeFromCartEffect | Store/Program.cs:376-419 | RemoveItem lowers the entry's key by exactly n when it holds at least n, else changes nothing; the entry goes exactly when exactly n was held; other entries keep value and order |
| Carts.LoweredInPlace | Store/Program.cs:385-393 | the in-place decrement keeps one entry per key, and the following Remove evicts exactly that entry |
| Carts.TotalByVariant | Store/Program.cs:437-440 | the total is the sum of Quantity times Price over packaged entries plus Weight times Price over bulk entries |
| Carts.ShoppingCart.constructor | Store/Program.cs:340 | a new cart is empty |
| Carts.ShoppingCart.AddItem | Store/Program.cs:348-374 | the cart's entries become Added(old entries, CartCopy(item, quantity)) |
| Carts.ShoppingCart.RemoveItem | Store/Program.cs:376-419 | the cart's entries become TakeFromCart(old entries, i, quantity); the quantity defaults to 1 |
| Carts.ShoppingCart.Clear | Store/Program.cs:426-429 | the cart becomes empty |
| Carts.ShoppingCart.CalculateTotalPrice | Store/Program.cs:437-440 | the packaged sum of Quantity times Price plus the bulk sum of Weight times Price |
| Checkout.Paid | Store/Program.cs:460-471 | the total is taken exactly when the balance covers it, else the balance stays; a non-negative balance never goes negative |
| Checkout.Recharged | Store/Program.cs:473-484 | only a positive amount is credited; the balance never drops |
| Checkout.RemoveEach | Store/Program.cs:506-510 | the removal loop on the category lists: the category set is kept |
| Checkout.RaisedStays | Store/Program.cs:506-510 | after an exception escapes the loop, the later entries change nothing |
| Checkout.RemoveEachStocked | Store/Program.cs:506-510 | removing the cart entries keeps every category in shape |
| Checkout.CheckoutStock | Store/Program.cs:493-514 | a checkout without exception lowers each listed key by what the cart holds of it; every other key keeps its stock and listing |
| Checkout.Customer.constructor | Store/Program.cs:449-453 | a new customer has the given name and balance and an empty cart |
| Checkout.Customer.Pay | Store/Program.cs:460-471 | the balance becomes Paid(old balance, total) |
| Checkout.Customer.RechargeBalance | Store/Program.cs:473-484 | the balance becomes Recharged(old balance, amount) |
| Checkout.CashRegister.constructor | Store/Program.cs:489 | the revenue starts at zero |
| Checkout.CashRegister.ProcessPayment | Store/Program.cs:493-514 | revenue grows by the cart total even when Pay declines; the customer's name, the store's category order and its collection objects are kept; the balance becomes Paid(old balance, total); the store follows RemoveEach over the cart entries; the cart is emptied exactly when no exception escapes |

## Left out

- Logging and display are not modelled: `Logger` and its sinks, `DisplayInfo`, `ToString`,
  `DisplayAllProducts`, `DisplayCart` and `PrintReceipt`. They are output only.
- The XML and JSON serializer adapters are not modelled. They are file I/O plus library calls.
- `Program.Main` and the menu helpers are not modelled. They are the interactive console UI.
- `SortProductsAsync` is not modelled: it runs a caller-supplied delegate on another task.
  `CompareProducts` is not modelled either: it only forwards to a delegate.
- `CopyTo`, `GetEnumerator`, `GetHashCode` and `IsReadOnly` are not modelled. They are
  plumbing that lookups do not use.
- `decimal` and `double` are exact reals. Floating-point rounding of weights, the
  `(decimal)Weight` conversion and `decimal` overflow are not modelled.
- `int` quantities are unbounded. Int32 wrap-around in `Quantity +=` and `-=` is not modelled.
  The range of the `(int)` cast in `AddItem` is not checked.
- The lazy singleton `Store.Instance` is replaced by one store passed explicitly.
- Reference aliasing is not modelled. The source aliases in two ways:
  - `Add` stores the caller's object, so a later merge mutates that object too;
  - `GetAllProducts` shares entry objects with the categories.
  Products are values here.
- The fall-through when variants differ inside `Add` and `Remove` is kept, but it cannot be
  reached, because `Equals` already compares variants.
- Carts.ShoppingCart.AddItem: a null item and the unsupported-variant branch are not modelled.
  The two variants are the whole `Product` datatype and there is no null.
- Carts.ShoppingCart.RemoveItem: acts on the cart's own entry, selected by index. That is the
  object the caller takes from the cart. The null-item branch (Store/Program.cs:420-423)
  dereferences null; it is excluded by the index precondition.
- `Customer.Name` is carried as a field but nothing about it is stated beyond Pay and
  RechargeBalance keeping it.
- Checkout.CashRegister.ProcessPayment: the removal loop is over a snapshot of the cart's
  entries. The source enumerates the live collection, which the loop does not change.
