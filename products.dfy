/** The two product variants of the store, their logical identity and their price.
    Decimal prices and double weights are modelled as exact reals. */
module Products {

  /** A catalog or cart entry. Packaged goods are counted in whole units, bulk goods
      are weighed. */
  datatype Product =
    | Packaged(id: int, name: string, category: string, price: real, quantity: int)
    | Bulk(id: int, name: string, category: string, price: real, weight: real)

  /** The logical key of a product: its runtime variant and its identity triple.
      Price and amount are not part of it. */
  datatype Key = Key(packaged: bool, id: int, name: string, category: string)

  function KeyOf(p: Product): Key
  {
    Key(p.Packaged?, p.id, p.name, p.category)
  }

  /** Product.Equals: the same runtime type, Id, Name and Category. */
  predicate Equals(a: Product, b: Product)
    ensures Equals(a, b) <==> KeyOf(a) == KeyOf(b)
  {
    a.Packaged? == b.Packaged? && a.id == b.id && a.name == b.name && a.category == b.category
  }

  /** The measured amount of a product: its quantity or its weight. */
  function Amount(p: Product): real
  {
    match p
    case Packaged(_, _, _, _, quantity) => quantity as real
    case Bulk(_, _, _, _, weight) => weight
  }

  /** CalculatePrice of either variant: the measured amount times the unit price. */
  function CalculatePrice(p: Product): real
  {
    Charge(p, p.price)
  }

  /** What the measured amount of `p` costs at the unit price `price`. */
  function Charge(p: Product, price: real): real
  {
    Amount(p) * price
  }

  /** The two overrides of CalculatePrice: Quantity * Price for packaged goods and
      Weight * Price for bulk goods; nothing measured costs nothing. */
  lemma CalculatePriceByVariant(p: Product)
    ensures p.Packaged? ==> CalculatePrice(p) == p.quantity as real * p.price
    ensures p.Bulk? ==> CalculatePrice(p) == p.weight * p.price
    ensures Amount(p) == 0.0 ==> CalculatePrice(p) == 0.0
  {
  }

  /** The entry `e` once the quantity or weight of the equal `item` has been added to it;
      the entry keeps its own price. */
  function Merged(e: Product, item: Product): (r: Product)
    requires Equals(e, item)
    ensures KeyOf(r) == KeyOf(e) && r.price == e.price
    ensures Amount(r) == Amount(e) + Amount(item)
  {
    match e
    case Packaged(_, _, _, _, quantity) => e.(quantity := quantity + item.quantity)
    case Bulk(_, _, _, _, weight) => e.(weight := weight + item.weight)
  }

  /** The entry `e` once the quantity or weight of the equal `item` has been taken off it. */
  function Deducted(e: Product, item: Product): (r: Product)
    requires Equals(e, item)
    ensures KeyOf(r) == KeyOf(e) && r.price == e.price
    ensures Amount(r) == Amount(e) - Amount(item)
  {
    match e
    case Packaged(_, _, _, _, quantity) => e.(quantity := quantity - item.quantity)
    case Bulk(_, _, _, _, weight) => e.(weight := weight - item.weight)
  }

  /** Equal amounts cost the same at the same unit price. */
  lemma ChargeOfAmount(p: Product, q: Product, price: real)
    requires Amount(p) == Amount(q)
    ensures Charge(p, price) == Charge(q, price)
  {
  }

  /** Merging raises the entry's price by the item's amount at the entry's own unit price. */
  lemma MergedPrice(e: Product, item: Product)
    requires Equals(e, item)
    ensures CalculatePrice(Merged(e, item)) == CalculatePrice(e) + Charge(item, e.price)
  {
    var a, b := Amount(e), Amount(item);
    assert (a + b) * e.price == a * e.price + b * e.price;
  }

  /** Deducting lowers the entry's price by the item's amount at the entry's own unit price. */
  lemma DeductedPrice(e: Product, item: Product)
    requires Equals(e, item)
    ensures CalculatePrice(Deducted(e, item)) == CalculatePrice(e) - Charge(item, e.price)
  {
    var a, b := Amount(e), Amount(item);
    assert (a - b) * e.price == a * e.price - b * e.price;
  }

  /** The entry `e` with `n` units taken off its quantity or weight (the cart's own
      decrement, whose amount is always a whole number). */
  function Lowered(e: Product, n: int): (r: Product)
    ensures KeyOf(r) == KeyOf(e) && r.price == e.price
    ensures Amount(r) == Amount(e) - n as real
  {
    match e
    case Packaged(_, _, _, _, quantity) => e.(quantity := quantity - n)
    case Bulk(_, _, _, _, weight) => e.(weight := weight - n as real)
  }

  /** A product with the key and price of `e` and the amount `n`: a request to take `n`
      units of `e`. */
  function Portion(e: Product, n: int): (r: Product)
    ensures KeyOf(r) == KeyOf(e) && r.price == e.price
    ensures Amount(r) == n as real
  {
    match e
    case Packaged(_, _, _, _, _) => e.(quantity := n)
    case Bulk(_, _, _, _, _) => e.(weight := n as real)
  }

  /** The C# cast `(int)x` of a double: truncation toward zero. */
  function Truncate(x: real): (n: int)
    ensures 0.0 <= x ==> 0 <= n && n as real <= x < n as real + 1.0
    ensures x < 0.0 ==> n <= 0 && n as real - 1.0 < x <= n as real
  {
    if 0.0 <= x then x.Floor else -((-x).Floor)
  }
}
