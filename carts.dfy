/** ShoppingCart: a ProductCollection of copies of catalog products, at the amounts the
    customer asked for. */
module Carts {
  import opened Products
  import opened Collections

  /** The product AddItem puts into the cart: a new product with the catalog item's
      variant, identity and price, and the requested amount, cut to a whole number of
      units by the C# cast `(int)` for packaged goods. */
  function CartCopy(item: Product, quantity: real): (r: Product)
    ensures KeyOf(r) == KeyOf(item) && r.price == item.price
    ensures item.Packaged? ==> Amount(r) == Truncate(quantity) as real
    ensures item.Bulk? ==> Amount(r) == quantity
  {
    match item
    case Packaged(id, name, category, price, _) => Packaged(id, name, category, price, Truncate(quantity))
    case Bulk(id, name, category, price, _) => Bulk(id, name, category, price, quantity)
  }

  /** RemoveItem on the cart's entries, for the entry at position `i` and `n` units:
      the entry is lowered in place when it holds at least `n`, and evicted when that
      leaves nothing; otherwise the cart stays as it is. */
  function TakeFromCart(s: seq<Product>, i: nat, n: int): (r: seq<Product>)
    requires i < |s|
    ensures Amount(s[i]) < n as real ==> r == s
    ensures |r| == |s| || |r| == |s| - 1
  {
    if Amount(s[i]) >= n as real then
      var left := Lowered(s[i], n);
      if Amount(left) == 0.0 then s[..i] + s[i + 1..] else s[i := left]
    else s
  }

  /** Quantity times price of a packaged entry, nothing for a bulk one. */
  function PackagedPrice(p: Product): real
  {
    if p.Packaged? then p.quantity as real * p.price else 0.0
  }

  /** Weight times price of a bulk entry, nothing for a packaged one. */
  function BulkPrice(p: Product): real
  {
    if p.Bulk? then p.weight * p.price else 0.0
  }

  /** The cart's total is the sum of Quantity times Price over its packaged entries plus
      the sum of Weight times Price over its bulk entries. */
  lemma TotalByVariant(s: seq<Product>)
    ensures Total(s) == SumOf(s, PackagedPrice) + SumOf(s, BulkPrice)
  {
    forall p ensures CalculatePrice(p) == PackagedPrice(p) + BulkPrice(p) {
      CalculatePriceByVariant(p);
    }
    SumOfPlus(s, PackagedPrice, BulkPrice, CalculatePrice);
  }

  /** Taking from a cart entry is the collection's Remove of that many units of it,
      guarded by the check that the entry holds enough, so it never throws. */
  lemma TakeFromCartIsRemove(s: seq<Product>, i: nat, n: int)
    requires UniqueKeys(s) && i < |s|
    ensures Amount(s[i]) >= n as real <==> RemoveFrom(s, Portion(s[i], n)).status == Removed
    ensures TakeFromCart(s, i, n)
         == if Amount(s[i]) >= n as real then RemoveFrom(s, Portion(s[i], n)).rest else s
  {
    var item := Portion(s[i], n);
    FirstMatchOfEntry(s, i);
    assert FirstMatch(s, item) == FirstMatch(s, s[i]) by {
      FirstMatchSameKey(s, item, s[i]);
    }
    assert Deducted(s[i], item) == Lowered(s[i], n);
  }

  lemma {:induction false} FirstMatchSameKey(s: seq<Product>, a: Product, b: Product)
    requires KeyOf(a) == KeyOf(b)
    ensures FirstMatch(s, a) == FirstMatch(s, b)
  {
    if s != [] && !Equals(s[0], a) {
      FirstMatchSameKey(s[1..], a, b);
    }
  }

  /** RemoveItem takes exactly `n` units of the entry's key when the entry holds at least
      that many, and otherwise leaves the cart unchanged; the entry disappears exactly when
      nothing is left of it, the entries of other keys stay as they were and in their
      order, and the cart keeps one entry per key. */
  lemma TakeFromCartEffect(s: seq<Product>, i: nat, n: int, k: Key)
    requires UniqueKeys(s) && i < |s|
    ensures UniqueKeys(TakeFromCart(s, i, n))
    ensures Amount(s[i]) < n as real ==> TakeFromCart(s, i, n) == s
    ensures Amount(s[i]) >= n as real
        ==> AmountOf(TakeFromCart(s, i, n), k)
            == AmountOf(s, k) - (if k == KeyOf(s[i]) then n as real else 0.0)
    ensures Others(TakeFromCart(s, i, n), KeyOf(s[i])) == Others(s, KeyOf(s[i]))
    ensures KeyOf(s[i]) in KeysOf(TakeFromCart(s, i, n))
        <==> Amount(s[i]) != n as real
  {
    var item := Portion(s[i], n);
    TakeFromCartIsRemove(s, i, n);
    if Amount(s[i]) >= n as real {
      RemovedEntry(s, item);
      RemovedAmounts(s, item, k);
      AmountOfEntry(s, i);
    } else {
      assert KeyOf(s[i]) in KeysOf(s);
    }
  }

  /** AddItem raises the amount of the item's key by the copied amount, leaves every other
      key alone, and raises the cart's total by that amount at the price the cart holds
      the key at. */
  lemma AddItemEffect(s: seq<Product>, item: Product, quantity: real, k: Key)
    requires UniqueKeys(s)
    ensures UniqueKeys(Added(s, CartCopy(item, quantity)))
    ensures AmountOf(Added(s, CartCopy(item, quantity)), k)
         == AmountOf(s, k) + (if k == KeyOf(item) then Amount(CartCopy(item, quantity)) else 0.0)
    ensures Total(Added(s, CartCopy(item, quantity)))
         == Total(s) + Charge(CartCopy(item, quantity), PriceFor(s, CartCopy(item, quantity)))
  {
    AddedUnique(s, CartCopy(item, quantity));
    AddedAmounts(s, CartCopy(item, quantity), k);
    AddedTotal(s, CartCopy(item, quantity));
  }

  /** Lowering a cart entry in place keeps one entry per key, and when it leaves nothing,
      the collection's Remove of the lowered entry evicts exactly that entry. */
  lemma LoweredInPlace(s: seq<Product>, i: nat, n: int)
    requires UniqueKeys(s) && i < |s|
    ensures UniqueKeys(s[i := Lowered(s[i], n)])
    ensures Amount(Lowered(s[i], n)) == 0.0
        ==> RemoveFrom(s[i := Lowered(s[i], n)], Lowered(s[i], n)) == Removal(Removed, s[..i] + s[i + 1..])
  {
    var left := Lowered(s[i], n);
    var t := s[i := left];
    forall a, b | 0 <= a < b < |t| ensures KeyOf(t[a]) != KeyOf(t[b]) {
      assert KeyOf(t[a]) == KeyOf(s[a]) && KeyOf(t[b]) == KeyOf(s[b]);
    }
    FirstMatchOfEntry(t, i);
    assert t[..i] == s[..i] && t[i + 1..] == s[i + 1..];
  }

  class ShoppingCart {
    const items: ProductCollection

    ghost predicate Valid()
      reads this, items
    {
      items.Valid()
    }

    constructor ()
      ensures Valid() && fresh(items) && items.products == []
    {
      items := new ProductCollection();
    }

    method AddItem(item: Product, quantity: real)
      requires Valid()
      modifies items
      ensures Valid()
      ensures items.products == Added(old(items.products), CartCopy(item, quantity))
    {
      var copy: Product;
      if item.Packaged? {
        copy := Packaged(item.id, item.name, item.category, item.price, Truncate(quantity));
      } else {
        copy := Bulk(item.id, item.name, item.category, item.price, quantity);
      }
      items.Add(copy);
    }

    /** RemoveItem for the cart entry at position `i`, the object the caller picks from
        the cart itself. */
    method RemoveItem(i: nat, quantity: int := 1)
      requires Valid() && i < |items.products|
      modifies items
      ensures Valid()
      ensures items.products == TakeFromCart(old(items.products), i, quantity)
    {
      var entry := items.products[i];
      LoweredInPlace(items.products, i, quantity);
      if entry.Packaged? {
        if entry.quantity >= quantity {
          entry := entry.(quantity := entry.quantity - quantity);
          items.products := items.products[i := entry];
          if entry.quantity == 0 {
            var _ := items.Remove(entry);
          }
        }
      } else {
        if entry.weight >= quantity as real {
          entry := entry.(weight := entry.weight - quantity as real);
          items.products := items.products[i := entry];
          if entry.weight == 0.0 {
            var _ := items.Remove(entry);
          }
        }
      }
    }

    method Clear()
      modifies items
      ensures Valid() && items.products == []
    {
      items.Clear();
    }

    /** CalculateTotalPrice: the LINQ Sum of CalculatePrice over the cart. */
    function CalculateTotalPrice(): (r: real)
      reads this, items
      ensures r == SumOf(items.products, PackagedPrice) + SumOf(items.products, BulkPrice)
    {
      TotalByVariant(items.products);
      Total(items.products)
    }
  }
}
