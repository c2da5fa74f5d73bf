/** ProductCollection: an insertion-ordered list of products that merges the amount of an
    equal product on Add and subtracts it on Remove, evicting an entry that reaches zero. */
module Collections {
  import opened Products

  datatype Option<T> = None | Some(value: T)

  /** The position of the first entry equal to `item`: the entry that
      List.FirstOrDefault(p => p.Equals(item)) returns. */
  function FirstMatch(s: seq<Product>, item: Product): (r: Option<nat>)
    ensures r.Some? ==> r.value < |s| && Equals(s[r.value], item)
    ensures r.Some? ==> forall j :: 0 <= j < r.value ==> !Equals(s[j], item)
    ensures r.None? ==> forall j :: 0 <= j < |s| ==> !Equals(s[j], item)
  {
    if s == [] then None
    else if Equals(s[0], item) then Some(0)
    else match FirstMatch(s[1..], item)
      case None => None
      case Some(k) => Some(k + 1)
  }

  /** At most one entry per key: the invariant every collection keeps. */
  predicate UniqueKeys(s: seq<Product>)
  {
    forall i, j :: 0 <= i < j < |s| ==> KeyOf(s[i]) != KeyOf(s[j])
  }

  /** The keys that have an entry. */
  function KeysOf(s: seq<Product>): set<Key>
  {
    set i | 0 <= i < |s| :: KeyOf(s[i])
  }

  /** How much of key `k` the entries hold together. */
  function AmountOf(s: seq<Product>, k: Key): real
  {
    if s == [] then 0.0
    else AmountOf(s[..|s| - 1], k) + (if KeyOf(s[|s| - 1]) == k then Amount(s[|s| - 1]) else 0.0)
  }

  /** The entries whose key is not `k`, in their order. */
  function Others(s: seq<Product>, k: Key): seq<Product>
  {
    if s == [] then []
    else Others(s[..|s| - 1], k) + (if KeyOf(s[|s| - 1]) == k then [] else [s[|s| - 1]])
  }

  /** The sum of `f` over the entries, added up from the first to the last (LINQ Sum). */
  function SumOf(s: seq<Product>, f: Product -> real): real
  {
    if s == [] then 0.0 else SumOf(s[..|s| - 1], f) + f(s[|s| - 1])
  }

  /** The price of all the entries together: the sum of their CalculatePrice. */
  function Total(s: seq<Product>): real
  {
    SumOf(s, CalculatePrice)
  }

  /** ProductCollection.Add on the list of entries: merge into the first equal entry,
      or append. */
  function Added(s: seq<Product>, item: Product): (r: seq<Product>)
    ensures |r| == |s| || r == s + [item]
  {
    match FirstMatch(s, item)
    case None => s + [item]
    case Some(i) => s[i := Merged(s[i], item)]
  }

  /** The unit price at which the collection holds `item`'s key after Add: that of the
      entry it merges into, or its own. */
  function PriceFor(s: seq<Product>, item: Product): real
  {
    match FirstMatch(s, item)
    case None => item.price
    case Some(i) => s[i].price
  }

  /** How Remove ends: it returns true, returns false, or throws StoreException. */
  datatype RemoveStatus = Removed | NotFound | OverRemoval

  datatype Removal = Removal(status: RemoveStatus, rest: seq<Product>)

  /** ProductCollection.Remove on the list of entries. */
  function RemoveFrom(s: seq<Product>, item: Product): (r: Removal)
    ensures r.status != Removed ==> r.rest == s
  {
    match FirstMatch(s, item)
    case None => Removal(NotFound, s)
    case Some(i) =>
      if Amount(item) > Amount(s[i]) then Removal(OverRemoval, s)
      else Removal(Removed, Taken(s, i, item))
  }

  /** The entries once `item`'s amount is taken off the entry at `i`: the entry is
      evicted when nothing is left of it. */
  function Taken(s: seq<Product>, i: nat, item: Product): seq<Product>
    requires i < |s| && Equals(s[i], item)
  {
    var left := Deducted(s[i], item);
    if Amount(left) == 0.0 then s[..i] + s[i + 1..] else s[i := left]
  }

  // ---------------------------------------------------------------------------------
  // The folds over a concatenation

  lemma {:induction false} AmountOfConcat(a: seq<Product>, b: seq<Product>, k: Key)
    ensures AmountOf(a + b, k) == AmountOf(a, k) + AmountOf(b, k)
  {
    if b == [] {
      assert a + b == a;
    } else {
      AmountOfConcat(a, b[..|b| - 1], k);
      assert (a + b)[..|a + b| - 1] == a + b[..|b| - 1];
    }
  }

  lemma {:induction false} OthersConcat(a: seq<Product>, b: seq<Product>, k: Key)
    ensures Others(a + b, k) == Others(a, k) + Others(b, k)
  {
    if b == [] {
      assert a + b == a;
    } else {
      OthersConcat(a, b[..|b| - 1], k);
      assert (a + b)[..|a + b| - 1] == a + b[..|b| - 1];
    }
  }

  lemma {:induction false} SumOfConcat(a: seq<Product>, b: seq<Product>, f: Product -> real)
    ensures SumOf(a + b, f) == SumOf(a, f) + SumOf(b, f)
  {
    if b == [] {
      assert a + b == a;
    } else {
      SumOfConcat(a, b[..|b| - 1], f);
      assert (a + b)[..|a + b| - 1] == a + b[..|b| - 1];
    }
  }

  lemma KeysOfConcat(a: seq<Product>, b: seq<Product>)
    ensures KeysOf(a + b) == KeysOf(a) + KeysOf(b)
  {
    forall k | k in KeysOf(a + b) ensures k in KeysOf(a) + KeysOf(b) {
      var i :| 0 <= i < |a + b| && KeyOf((a + b)[i]) == k;
      if i < |a| {
        assert (a + b)[i] == a[i];
      } else {
        assert (a + b)[i] == b[i - |a|];
      }
    }
    forall k | k in KeysOf(a) ensures k in KeysOf(a + b) {
      var i :| 0 <= i < |a| && KeyOf(a[i]) == k;
      assert (a + b)[i] == a[i];
    }
    forall k | k in KeysOf(b) ensures k in KeysOf(a + b) {
      var i :| 0 <= i < |b| && KeyOf(b[i]) == k;
      assert (a + b)[|a| + i] == b[i];
    }
  }

  lemma KeysOfSingle(e: Product)
    ensures KeysOf([e]) == {KeyOf(e)}
  {
    assert KeyOf([e][0]) in KeysOf([e]);
  }

  lemma {:induction false} AmountOfAbsent(s: seq<Product>, k: Key)
    requires k !in KeysOf(s)
    ensures AmountOf(s, k) == 0.0
  {
    if s != [] {
      var init := s[..|s| - 1];
      assert s == init + [s[|s| - 1]];
      KeysOfConcat(init, [s[|s| - 1]]);
      KeysOfSingle(s[|s| - 1]);
      AmountOfAbsent(init, k);
    }
  }

  lemma {:induction false} OthersAbsent(s: seq<Product>, k: Key)
    requires k !in KeysOf(s)
    ensures Others(s, k) == s
  {
    if s != [] {
      var init := s[..|s| - 1];
      assert s == init + [s[|s| - 1]];
      KeysOfConcat(init, [s[|s| - 1]]);
      KeysOfSingle(s[|s| - 1]);
      OthersAbsent(init, k);
    }
  }

  // Replacing or deleting the entry at position i

  lemma AmountOfSplice(s: seq<Product>, i: nat, e: Product, k: Key)
    requires i < |s|
    ensures AmountOf(s[i := e], k)
         == AmountOf(s, k) - (if KeyOf(s[i]) == k then Amount(s[i]) else 0.0)
            + (if KeyOf(e) == k then Amount(e) else 0.0)
    ensures AmountOf(s[..i] + s[i + 1..], k)
         == AmountOf(s, k) - (if KeyOf(s[i]) == k then Amount(s[i]) else 0.0)
  {
    var a, b := s[..i], s[i + 1..];
    assert s == (a + [s[i]]) + b;
    assert s[i := e] == (a + [e]) + b;
    AmountOfConcat(a + [s[i]], b, k);
    AmountOfConcat(a + [e], b, k);
    AmountOfConcat(a, b, k);
    assert (a + [s[i]])[..|a|] == a;
    assert (a + [e])[..|a|] == a;
  }

  lemma OthersSplice(s: seq<Product>, i: nat, e: Product)
    requires i < |s| && KeyOf(e) == KeyOf(s[i])
    ensures Others(s[i := e], KeyOf(e)) == Others(s, KeyOf(e))
    ensures Others(s[..i] + s[i + 1..], KeyOf(e)) == Others(s, KeyOf(e))
  {
    var a, b, k := s[..i], s[i + 1..], KeyOf(e);
    assert s == (a + [s[i]]) + b;
    assert s[i := e] == (a + [e]) + b;
    OthersConcat(a + [s[i]], b, k);
    OthersConcat(a + [e], b, k);
    OthersConcat(a, b, k);
    assert (a + [s[i]])[..|a|] == a;
    assert (a + [e])[..|a|] == a;
  }

  lemma SumOfSnoc(a: seq<Product>, x: Product, f: Product -> real)
    ensures SumOf(a + [x], f) == SumOf(a, f) + f(x)
  {
    assert (a + [x])[..|a|] == a;
  }

  /** The sum splits around any position. */
  lemma SumOfSplit(s: seq<Product>, i: nat, f: Product -> real)
    requires i < |s|
    ensures SumOf(s, f) == SumOf(s[..i], f) + f(s[i]) + SumOf(s[i + 1..], f)
  {
    var a, b := s[..i], s[i + 1..];
    assert s == (a + [s[i]]) + b;
    SumOfConcat(a + [s[i]], b, f);
    SumOfSnoc(a, s[i], f);
  }

  lemma SumOfReplace(s: seq<Product>, i: nat, e: Product, f: Product -> real)
    requires i < |s|
    ensures SumOf(s[i := e], f) == SumOf(s, f) - f(s[i]) + f(e)
  {
    SumOfSplit(s, i, f);
    SumOfSplit(s[i := e], i, f);
    assert s[i := e][..i] == s[..i];
    assert s[i := e][i + 1..] == s[i + 1..];
  }

  lemma SumOfDelete(s: seq<Product>, i: nat, f: Product -> real)
    requires i < |s|
    ensures SumOf(s[..i] + s[i + 1..], f) == SumOf(s, f) - f(s[i])
  {
    SumOfSplit(s, i, f);
    SumOfConcat(s[..i], s[i + 1..], f);
  }

  /** A sum of a pointwise sum is the sum of the two sums. */
  lemma {:induction false} SumOfPlus(s: seq<Product>, f: Product -> real, g: Product -> real, h: Product -> real)
    requires forall p :: h(p) == f(p) + g(p)
    ensures SumOf(s, h) == SumOf(s, f) + SumOf(s, g)
  {
    if s != [] {
      SumOfPlus(s[..|s| - 1], f, g, h);
    }
  }

  lemma KeysSplice(s: seq<Product>, i: nat, e: Product)
    requires i < |s| && KeyOf(e) == KeyOf(s[i])
    ensures KeysOf(s[i := e]) == KeysOf(s)
    ensures KeysOf(s[..i] + s[i + 1..]) - {KeyOf(e)} == KeysOf(s) - {KeyOf(e)}
  {
    var a, b := s[..i], s[i + 1..];
    assert s == (a + [s[i]]) + b;
    assert s[i := e] == (a + [e]) + b;
    KeysOfConcat(a + [s[i]], b);
    KeysOfConcat(a + [e], b);
    KeysOfConcat(a, [s[i]]);
    KeysOfConcat(a, [e]);
    KeysOfConcat(a, b);
    KeysOfSingle(s[i]);
    KeysOfSingle(e);
  }

  lemma FirstMatchKeys(s: seq<Product>, item: Product)
    ensures FirstMatch(s, item).Some? <==> KeyOf(item) in KeysOf(s)
  {
    if KeyOf(item) in KeysOf(s) {
      var i :| 0 <= i < |s| && KeyOf(s[i]) == KeyOf(item);
      assert Equals(s[i], item);
    }
  }

  /** With one entry per key, the amount held of an entry's key is that entry's amount. */
  lemma AmountOfEntry(s: seq<Product>, i: nat)
    requires UniqueKeys(s) && i < |s|
    ensures AmountOf(s, KeyOf(s[i])) == Amount(s[i])
  {
    var k := KeyOf(s[i]);
    var rest := s[..i] + s[i + 1..];
    assert k !in KeysOf(rest) by {
      forall j | 0 <= j < |rest| ensures KeyOf(rest[j]) != k {
        assert rest[j] == s[if j < i then j else j + 1];
      }
    }
    AmountOfAbsent(rest, k);
    AmountOfSplice(s, i, s[i], k);
  }

  /** With one entry per key, the first entry equal to an entry is that entry. */
  lemma FirstMatchOfEntry(s: seq<Product>, i: nat)
    requires UniqueKeys(s) && i < |s|
    ensures FirstMatch(s, s[i]) == Some(i)
  {
  }

  /** With one entry per key, the count of entries is the count of keys held. */
  lemma {:induction false} UniqueKeysCount(s: seq<Product>)
    requires UniqueKeys(s)
    ensures |KeysOf(s)| == |s|
  {
    if s != [] {
      var init := s[..|s| - 1];
      assert s == init + [s[|s| - 1]];
      KeysOfConcat(init, [s[|s| - 1]]);
      KeysOfSingle(s[|s| - 1]);
      assert KeyOf(s[|s| - 1]) !in KeysOf(init);
      UniqueKeysCount(init);
    }
  }

  // ---------------------------------------------------------------------------------
  // Add

  /** Add raises the amount held of the item's key by the item's amount and leaves every
      other key's amount alone. */
  lemma AddedAmounts(s: seq<Product>, item: Product, k: Key)
    ensures AmountOf(Added(s, item), k) == AmountOf(s, k) + (if k == KeyOf(item) then Amount(item) else 0.0)
  {
    match FirstMatch(s, item)
    case None =>
      assert (s + [item])[..|s|] == s;
    case Some(i) =>
      AmountOfSplice(s, i, Merged(s[i], item), k);
  }

  /** Add leaves the entries of every other key as they were, in their order. */
  lemma AddedOthers(s: seq<Product>, item: Product)
    ensures Others(Added(s, item), KeyOf(item)) == Others(s, KeyOf(item))
  {
    match FirstMatch(s, item)
    case None =>
      assert (s + [item])[..|s|] == s;
    case Some(i) =>
      OthersSplice(s, i, Merged(s[i], item));
  }

  /** Add gives the item's key an entry, keeps every key that had one, and creates a new
      entry only when the key had none. */
  lemma AddedKeys(s: seq<Product>, item: Product)
    ensures KeysOf(Added(s, item)) == KeysOf(s) + {KeyOf(item)}
    ensures |Added(s, item)| == if KeyOf(item) in KeysOf(s) then |s| else |s| + 1
  {
    FirstMatchKeys(s, item);
    match FirstMatch(s, item)
    case None =>
      KeysOfConcat(s, [item]);
      KeysOfSingle(item);
    case Some(i) =>
      KeysSplice(s, i, Merged(s[i], item));
  }

  /** Add keeps at most one entry per key. */
  lemma AddedUnique(s: seq<Product>, item: Product)
    requires UniqueKeys(s)
    ensures UniqueKeys(Added(s, item))
  {
  }

  /** Add raises the collection's total by the item's amount at the price the collection
      holds that key at. */
  lemma AddedTotal(s: seq<Product>, item: Product)
    ensures Total(Added(s, item)) == Total(s) + Charge(item, PriceFor(s, item))
  {
    match FirstMatch(s, item)
    case None =>
      assert (s + [item])[..|s|] == s;
      assert SumOf(s + [item], CalculatePrice) == SumOf(s, CalculatePrice) + CalculatePrice(item);
    case Some(i) =>
      MergedPrice(s[i], item);
      SumOfReplace(s, i, Merged(s[i], item), CalculatePrice);
  }

  // ---------------------------------------------------------------------------------
  // Remove

  /** Remove finds nothing exactly when the key has no entry, and throws exactly when it
      is asked for more than is held; in both cases the entries are unchanged. */
  lemma RemoveOutcome(s: seq<Product>, item: Product)
    requires UniqueKeys(s)
    ensures RemoveFrom(s, item).status == NotFound <==> KeyOf(item) !in KeysOf(s)
    ensures RemoveFrom(s, item).status == OverRemoval
        <==> KeyOf(item) in KeysOf(s) && Amount(item) > AmountOf(s, KeyOf(item))
    ensures RemoveFrom(s, item).status == Removed
        <==> KeyOf(item) in KeysOf(s) && Amount(item) <= AmountOf(s, KeyOf(item))
    ensures RemoveFrom(s, item).status != Removed ==> RemoveFrom(s, item).rest == s
  {
    FirstMatchKeys(s, item);
    match FirstMatch(s, item)
    case None =>
    case Some(i) =>
      AmountOfEntry(s, i);
  }

  /** A successful Remove lowers the amount held of the item's key by exactly the item's
      amount, leaves the entries of other keys as they were and in their order, and keeps
      the set of other keys. */
  lemma RemovedAmounts(s: seq<Product>, item: Product, k: Key)
    requires RemoveFrom(s, item).status == Removed
    ensures AmountOf(RemoveFrom(s, item).rest, k)
         == AmountOf(s, k) - (if k == KeyOf(item) then Amount(item) else 0.0)
    ensures Others(RemoveFrom(s, item).rest, KeyOf(item)) == Others(s, KeyOf(item))
    ensures KeysOf(RemoveFrom(s, item).rest) - {KeyOf(item)} == KeysOf(s) - {KeyOf(item)}
  {
    var i := FirstMatch(s, item).value;
    var left := Deducted(s[i], item);
    AmountOfSplice(s, i, left, k);
    OthersSplice(s, i, left);
    KeysSplice(s, i, left);
  }

  /** A successful Remove keeps one entry per key, never leaves a negative amount, and
      evicts the entry exactly when what is left of it is zero. */
  lemma RemovedEntry(s: seq<Product>, item: Product)
    requires UniqueKeys(s)
    requires RemoveFrom(s, item).status == Removed
    ensures UniqueKeys(RemoveFrom(s, item).rest)
    ensures AmountOf(RemoveFrom(s, item).rest, KeyOf(item)) >= 0.0
    ensures KeyOf(item) in KeysOf(RemoveFrom(s, item).rest)
        <==> AmountOf(RemoveFrom(s, item).rest, KeyOf(item)) != 0.0
    ensures |RemoveFrom(s, item).rest|
         == if KeyOf(item) in KeysOf(RemoveFrom(s, item).rest) then |s| else |s| - 1
  {
    var i := FirstMatch(s, item).value;
    var key := KeyOf(item);
    var left := Deducted(s[i], item);
    var rest := RemoveFrom(s, item).rest;
    if Amount(left) == 0.0 {
      assert rest == s[..i] + s[i + 1..];
      forall a, b | 0 <= a < b < |rest| ensures KeyOf(rest[a]) != KeyOf(rest[b]) {
        assert rest[a] == s[if a < i then a else a + 1];
        assert rest[b] == s[if b < i then b else b + 1];
      }
      forall j | 0 <= j < |rest| ensures KeyOf(rest[j]) != key {
        assert rest[j] == s[if j < i then j else j + 1];
      }
      AmountOfAbsent(rest, key);
    } else {
      assert rest == s[i := left];
      assert KeyOf(rest[i]) == key;
      AmountOfEntry(rest, i);
    }
  }

  lemma TotalEvicted(s: seq<Product>, i: nat, item: Product)
    requires i < |s| && Amount(s[i]) == Amount(item)
    ensures Total(s[..i] + s[i + 1..]) == Total(s) - Charge(item, s[i].price)
  {
    SumOfDelete(s, i, CalculatePrice);
    ChargeOfAmount(s[i], item, s[i].price);
  }

  lemma TotalDeducted(s: seq<Product>, i: nat, item: Product)
    requires i < |s| && Equals(s[i], item)
    ensures Total(s[i := Deducted(s[i], item)]) == Total(s) - Charge(item, s[i].price)
  {
    DeductedPrice(s[i], item);
    SumOfReplace(s, i, Deducted(s[i], item), CalculatePrice);
  }

  lemma TakenTotal(s: seq<Product>, i: nat, item: Product)
    requires i < |s| && Equals(s[i], item)
    ensures Total(Taken(s, i, item)) == Total(s) - Charge(item, s[i].price)
  {
    if Amount(Deducted(s[i], item)) == 0.0 {
      TotalEvicted(s, i, item);
    } else {
      TotalDeducted(s, i, item);
    }
  }

  /** Where a successful Remove acts: the first entry equal to the item. */
  lemma RemovedAt(s: seq<Product>, item: Product) returns (i: nat)
    requires RemoveFrom(s, item).status == Removed
    ensures i < |s| && Equals(s[i], item) && FirstMatch(s, item) == Some(i)
    ensures RemoveFrom(s, item).rest == Taken(s, i, item)
    ensures PriceFor(s, item) == s[i].price
  {
    i := FirstMatch(s, item).value;
  }

  /** A successful Remove lowers the collection's total by the item's amount at the price
      the entry is held at. */
  lemma RemovedTotal(s: seq<Product>, item: Product)
    requires RemoveFrom(s, item).status == Removed
    ensures Total(RemoveFrom(s, item).rest) == Total(s) - Charge(item, PriceFor(s, item))
  {
    var i := RemovedAt(s, item);
    TakenTotal(s, i, item);
  }

  // ---------------------------------------------------------------------------------
  // The collection object

  class ProductCollection {
    var products: seq<Product>

    ghost predicate Valid()
      reads this
    {
      UniqueKeys(products)
    }

    constructor ()
      ensures Valid() && products == []
    {
      products := [];
    }

    /** Count: with one entry per key, the number of keys held. */
    function Count(): (n: nat)
      reads this
      requires Valid()
      ensures n == |KeysOf(products)|
    {
      UniqueKeysCount(products);
      |products|
    }

    /** Contains: whether some entry is equal to `item` (same variant and identity). */
    function Contains(item: Product): (b: bool)
      reads this
      ensures b <==> KeyOf(item) in KeysOf(products)
    {
      FirstMatchKeys(products, item);
      FirstMatch(products, item).Some?
    }

    method Add(item: Product)
      requires Valid()
      modifies this
      ensures Valid()
      ensures products == Added(old(products), item)
    {
      AddedUnique(products, item);
      var found := FirstMatch(products, item);
      if found.Some? {
        var i := found.value;
        var existing := products[i];
        if item.Packaged? && existing.Packaged? {
          products := products[i := existing.(quantity := existing.quantity + item.quantity)];
        } else if item.Bulk? && existing.Bulk? {
          products := products[i := existing.(weight := existing.weight + item.weight)];
        }
      } else {
        products := products + [item];
      }
    }

    method Remove(item: Product) returns (status: RemoveStatus)
      requires Valid()
      modifies this
      ensures Valid()
      ensures Removal(status, products) == RemoveFrom(old(products), item)
    {
      var found := FirstMatch(products, item);
      if found.None? {
        return NotFound;
      }
      ghost var outcome := RemoveFrom(products, item);
      if outcome.status == Removed {
        RemovedEntry(products, item);
      }
      var i := found.value;
      var existing := products[i];
      if item.Packaged? && existing.Packaged? {
        if item.quantity > existing.quantity {
          return OverRemoval;
        }
        existing := existing.(quantity := existing.quantity - item.quantity);
        if existing.quantity == 0 {
          products := products[..i] + products[i + 1..];
        } else {
          products := products[i := existing];
        }
      } else if item.Bulk? && existing.Bulk? {
        if item.weight > existing.weight {
          return OverRemoval;
        }
        existing := existing.(weight := existing.weight - item.weight);
        if existing.weight == 0.0 {
          products := products[..i] + products[i + 1..];
        } else {
          products := products[i := existing];
        }
      }
      return Removed;
    }

    method Clear()
      modifies this
      ensures Valid() && products == []
    {
      products := [];
    }
  }
}
