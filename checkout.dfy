/** Customer and CashRegister: paying for a cart and taking its contents out of the store. */
module Checkout {
  import opened Products
  import opened Collections
  import opened Stores
  import opened Carts

  /** The balance after Pay(total): the total is taken only when the balance covers it. */
  function Paid(balance: real, total: real): (r: real)
    ensures r == balance - total || r == balance
    ensures r == balance - total <==> balance >= total || total == 0.0
    ensures 0.0 <= balance ==> 0.0 <= r
  {
    if balance >= total then balance - total else balance
  }

  /** The balance after RechargeBalance(amount): only a positive amount is credited. */
  function Recharged(balance: real, amount: real): (r: real)
    ensures r == balance + amount || r == balance
    ensures r == balance + amount <==> amount >= 0.0
    ensures r >= balance
  {
    if amount > 0.0 then balance + amount else balance
  }

  /** The store after RemoveProduct of each cart entry in turn; the first StoreException
      ends the loop and leaves the later entries unremoved. */
  function RemoveEach(m: map<string, seq<Product>>, items: seq<Product>): (r: Outcome)
    ensures r.contents.Keys == m.Keys
  {
    if items == [] then Outcome(false, m)
    else
      var r := RemoveEach(m, items[..|items| - 1]);
      if r.raised then r else StoreRemoved(r.contents, items[|items| - 1])
  }

  /** Once an exception has escaped, the later entries change nothing. */
  lemma {:induction false} RaisedStays(m: map<string, seq<Product>>, a: seq<Product>, b: seq<Product>)
    requires RemoveEach(m, a).raised
    ensures RemoveEach(m, a + b) == RemoveEach(m, a)
  {
    if b == [] {
      assert a + b == a;
    } else {
      RaisedStays(m, a, b[..|b| - 1]);
      assert (a + b)[..|a + b| - 1] == a + b[..|b| - 1];
    }
  }

  /** One turn of the removal loop: the next entry's RemoveProduct extends the run, and an
      exception it raises is the outcome of the whole loop. */
  lemma RemoveEachNext(m: map<string, seq<Product>>, items: seq<Product>, j: nat, r: Outcome)
    requires j < |items| && !RemoveEach(m, items[..j]).raised
    requires r == StoreRemoved(RemoveEach(m, items[..j]).contents, items[j])
    ensures RemoveEach(m, items[..j + 1]) == r
    ensures r.raised ==> RemoveEach(m, items) == r
  {
    var done := items[..j + 1];
    assert done[..|done| - 1] == items[..j] && done[|done| - 1] == items[j];
    assert RemoveEach(m, done) == r;
    if r.raised {
      RaisedStays(m, done, items[j + 1..]);
      assert done + items[j + 1..] == items;
    }
  }

  /** Removing the cart entries keeps every category list in shape. */
  lemma {:induction false} RemoveEachStocked(m: map<string, seq<Product>>, items: seq<Product>)
    requires Stocked(m)
    ensures Stocked(RemoveEach(m, items).contents)
  {
    if items != [] {
      RemoveEachStocked(m, items[..|items| - 1]);
      StoreRemovedStocked(RemoveEach(m, items[..|items| - 1]).contents, items[|items| - 1]);
    }
  }

  /** A checkout that raises nothing lowers the stock of each listed key by exactly what
      the cart holds of it, and leaves the stock of every other key, and whether each key
      not in the cart is listed, as it was. */
  lemma {:induction false} CheckoutStock(m: map<string, seq<Product>>, items: seq<Product>, k: Key)
    requires Stocked(m) && UniqueKeys(items) && !RemoveEach(m, items).raised
    ensures StockOf(RemoveEach(m, items).contents, k)
         == StockOf(m, k) - (if k in KeysOf(items) && Listed(m, k) then AmountOf(items, k) else 0.0)
    ensures k !in KeysOf(items) ==> (Listed(RemoveEach(m, items).contents, k) <==> Listed(m, k))
  {
    if items != [] {
      var init, x := items[..|items| - 1], items[|items| - 1];
      var r := RemoveEach(m, init);
      assert !r.raised;
      assert UniqueKeys(init);
      assert items == init + [x];
      KeysOfConcat(init, [x]);
      KeysOfSingle(x);
      AmountOfConcat(init, [x], k);
      assert AmountOf([x], k) == if KeyOf(x) == k then Amount(x) else 0.0 by {
        assert [x][..0] == [];
      }
      CheckoutStock(m, init, k);
      RemoveEachStocked(m, init);
      StoreRemovedStock(r.contents, x, k);
      if k == KeyOf(x) {
        assert k !in KeysOf(init) by {
          forall j | 0 <= j < |init| ensures KeyOf(init[j]) != k {
            assert init[j] == items[j];
          }
        }
        AmountOfAbsent(init, k);
      }
    }
  }

  class Customer {
    var name: string
    const cart: ShoppingCart
    var balance: real

    ghost predicate Valid()
      reads this, cart, cart.items
    {
      cart.Valid()
    }

    constructor (name: string, balance: real)
      ensures Valid() && this.name == name && this.balance == balance
      ensures fresh(cart) && fresh(cart.items) && cart.items.products == []
    {
      this.name := name;
      this.balance := balance;
      cart := new ShoppingCart();
    }

    method Pay(total: real)
      modifies this
      ensures name == old(name)
      ensures balance == Paid(old(balance), total)
    {
      if balance >= total {
        balance := balance - total;
      }
    }

    method RechargeBalance(amount: real)
      modifies this
      ensures name == old(name)
      ensures balance == Recharged(old(balance), amount)
    {
      if amount > 0.0 {
        balance := balance + amount;
      }
    }
  }

  class CashRegister {
    var totalRevenue: real

    constructor ()
      ensures totalRevenue == 0.0
    {
      totalRevenue := 0.0;
    }

    /** ProcessPayment, with the store the register sells from. `raised` says that a
        StoreException escaped from the removal loop. */
    method ProcessPayment(customer: Customer, store: Store) returns (raised: bool)
      requires customer.Valid() && store.Valid()
      requires customer.cart.items !in store.categories.Values
      modifies this, customer, customer.cart.items, store, store.categories.Values
      ensures customer.Valid() && store.Valid()
      ensures customer.name == old(customer.name) && store.names == old(store.names)
      ensures store.categories == old(store.categories)
      ensures totalRevenue == old(totalRevenue) + Total(old(customer.cart.items.products))
      ensures customer.balance == Paid(old(customer.balance), Total(old(customer.cart.items.products)))
      ensures Outcome(raised, store.contents) == RemoveEach(old(store.contents), old(customer.cart.items.products))
      ensures customer.cart.items.products == if raised then old(customer.cart.items.products) else []
    {
      var total := customer.cart.CalculateTotalPrice();
      customer.Pay(total);
      totalRevenue := totalRevenue + total;
      var entries := customer.cart.items.products;
      ghost var m := store.contents;
      assert entries == old(customer.cart.items.products) && m == old(store.contents);
      assert total == Total(entries);
      var j := 0;
      raised := false;
      while j < |entries| && !raised
        invariant 0 <= j <= |entries| && store.Valid()
        invariant store.categories == old(store.categories) && store.names == old(store.names)
        invariant customer.cart.items.products == entries
        invariant !raised ==> RemoveEach(m, entries[..j]) == Outcome(false, store.contents)
        invariant raised ==> RemoveEach(m, entries) == Outcome(true, store.contents)
        modifies store, store.categories.Values
      {
        raised := store.RemoveProduct(entries[j]);
        RemoveEachNext(m, entries, j, Outcome(raised, store.contents));
        j := j + 1;
      }
      if !raised {
        assert entries[..j] == entries;
        customer.cart.Clear();
      }
    }
  }
}
