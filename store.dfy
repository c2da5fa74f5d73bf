/** Store: a dictionary from category name to the ProductCollection of that category.
    Categories are created on the first add and never removed, so the dictionary's
    enumeration order is the order in which the categories were created. */
module Stores {
  import opened Products
  import opened Collections

  /** Every key held is filed under category `c`. */
  predicate Filed(s: seq<Product>, c: string)
  {
    forall k :: k in KeysOf(s) ==> k.category == c
  }

  /** The shape every category list keeps: one entry per key, all of its own category. */
  predicate Stocked(m: map<string, seq<Product>>)
  {
    forall c :: c in m ==> UniqueKeys(m[c]) && Filed(m[c], c)
  }

  predicate Distinct(names: seq<string>)
  {
    forall i, j :: 0 <= i < j < |names| ==> names[i] != names[j]
  }

  /** The entries of category `c`, or none when the store has no such category. */
  function InCategory(m: map<string, seq<Product>>, c: string): seq<Product>
  {
    if c in m then m[c] else []
  }

  /** How much of key `k` the store holds: the amount in the key's own category. */
  function StockOf(m: map<string, seq<Product>>, k: Key): real
  {
    AmountOf(InCategory(m, k.category), k)
  }

  /** Whether key `k` has an entry in its own category. */
  predicate Listed(m: map<string, seq<Product>>, k: Key)
  {
    k in KeysOf(InCategory(m, k.category))
  }

  /** Store.AddProduct on the category lists: the product goes into its own category. */
  function StoreAdded(m: map<string, seq<Product>>, p: Product): map<string, seq<Product>>
  {
    m[p.category := Added(InCategory(m, p.category), p)]
  }

  /** How a store operation ends: normally, or by letting StoreException escape. */
  datatype Outcome = Outcome(raised: bool, contents: map<string, seq<Product>>)

  /** Store.RemoveProduct on the category lists: nothing for an unknown category,
      otherwise the category's Remove, whose StoreException escapes. */
  function StoreRemoved(m: map<string, seq<Product>>, p: Product): (r: Outcome)
    ensures r.contents.Keys == m.Keys
    ensures r.raised ==> r.contents == m
  {
    if p.category in m then
      var r := RemoveFrom(m[p.category], p);
      if r.status == OverRemoval then Outcome(true, m)
      else Outcome(false, m[p.category := r.rest])
    else Outcome(false, m)
  }

  /** All products, category after category in the order `names` gives: what
      GetAllProducts collects. */
  function Flatten(names: seq<string>, m: map<string, seq<Product>>): (r: seq<Product>)
    ensures forall c :: c in m && c in names ==> |m[c]| <= |r|
  {
    if names == [] then []
    else Flatten(names[..|names| - 1], m) + InCategory(m, names[|names| - 1])
  }

  /** The sum of the category counts. */
  function CountSum(names: seq<string>, m: map<string, seq<Product>>): nat
  {
    if names == [] then 0
    else CountSum(names[..|names| - 1], m) + |KeysOf(InCategory(m, names[|names| - 1]))|
  }

  // ---------------------------------------------------------------------------------
  // AddProduct and RemoveProduct on the category lists

  /** Add keeps a category list in shape when the product belongs to the category. */
  lemma AddedFiled(s: seq<Product>, p: Product)
    requires UniqueKeys(s) && Filed(s, p.category)
    ensures UniqueKeys(Added(s, p)) && Filed(Added(s, p), p.category)
  {
    AddedUnique(s, p);
    AddedKeys(s, p);
  }

  /** AddProduct keeps every category list in shape. */
  lemma StoreAddedStocked(m: map<string, seq<Product>>, p: Product)
    requires Stocked(m)
    ensures Stocked(StoreAdded(m, p))
  {
    AddedFiled(InCategory(m, p.category), p);
  }

  /** AddProduct raises the stock of the product's key in its own category by the
      product's amount and changes no other category. */
  lemma StoreAddedEffect(m: map<string, seq<Product>>, p: Product, k: Key)
    ensures StoreAdded(m, p).Keys == m.Keys + {p.category}
    ensures forall c :: c in m && c != p.category ==> StoreAdded(m, p)[c] == m[c]
    ensures KeysOf(StoreAdded(m, p)[p.category]) == KeysOf(InCategory(m, p.category)) + {KeyOf(p)}
    ensures AmountOf(StoreAdded(m, p)[p.category], k)
         == AmountOf(InCategory(m, p.category), k) + (if k == KeyOf(p) then Amount(p) else 0.0)
  {
    var s := InCategory(m, p.category);
    var r := StoreAdded(m, p);
    assert r == m[p.category := Added(s, p)];
    assert r[p.category] == Added(s, p);
    forall c | c in m && c != p.category ensures r[c] == m[c] {
    }
    AddedKeys(s, p);
    AddedAmounts(s, p, k);
  }

  /** Remove keeps a category list in shape. */
  lemma RemovedFiled(s: seq<Product>, p: Product, c: string)
    requires UniqueKeys(s) && Filed(s, c)
    ensures UniqueKeys(RemoveFrom(s, p).rest) && Filed(RemoveFrom(s, p).rest, c)
  {
    RemoveOutcome(s, p);
    if RemoveFrom(s, p).status == Removed {
      RemovedEntry(s, p);
      RemovedAmounts(s, p, KeyOf(p));
    }
  }

  /** RemoveProduct keeps every category list in shape. */
  lemma StoreRemovedStocked(m: map<string, seq<Product>>, p: Product)
    requires Stocked(m)
    ensures Stocked(StoreRemoved(m, p).contents)
  {
    if p.category in m {
      RemovedFiled(m[p.category], p, p.category);
    }
  }

  /** RemoveProduct ignores an unknown category and a product with no entry, and throws
      exactly when more is asked for than its category holds, changing nothing. */
  lemma StoreRemovedOutcome(m: map<string, seq<Product>>, p: Product)
    requires Stocked(m)
    ensures StoreRemoved(m, p).contents.Keys == m.Keys
    ensures StoreRemoved(m, p).raised
        <==> KeyOf(p) in KeysOf(InCategory(m, p.category))
             && Amount(p) > AmountOf(InCategory(m, p.category), KeyOf(p))
    ensures KeyOf(p) !in KeysOf(InCategory(m, p.category)) ==> StoreRemoved(m, p).contents == m
    ensures StoreRemoved(m, p).raised ==> StoreRemoved(m, p).contents == m
  {
    if p.category in m {
      RemoveOutcome(m[p.category], p);
    }
  }

  /** A Remove that does not throw lowers the amount of the item's key by the item's amount
      when the key is held and changes nothing otherwise; every other key keeps its amount
      and whether it is held. */
  lemma RemoveStock(s: seq<Product>, p: Product, k: Key)
    requires UniqueKeys(s) && RemoveFrom(s, p).status != OverRemoval
    ensures AmountOf(RemoveFrom(s, p).rest, k)
         == AmountOf(s, k) - (if k == KeyOf(p) && k in KeysOf(s) then Amount(p) else 0.0)
    ensures k != KeyOf(p) ==> (k in KeysOf(RemoveFrom(s, p).rest) <==> k in KeysOf(s))
  {
    RemoveOutcome(s, p);
    if RemoveFrom(s, p).status == Removed {
      var rest := RemoveFrom(s, p).rest;
      RemovedAmounts(s, p, k);
      assert k != KeyOf(p) ==> (k in KeysOf(rest) - {KeyOf(p)} <==> k in KeysOf(s) - {KeyOf(p)});
    }
  }

  /** When RemoveProduct completes, the stock of the product's key drops by the product's
      amount if the key is listed and stays otherwise; every other key keeps its stock
      and whether it is listed. */
  lemma StoreRemovedStock(m: map<string, seq<Product>>, p: Product, k: Key)
    requires Stocked(m) && !StoreRemoved(m, p).raised
    ensures StockOf(StoreRemoved(m, p).contents, k)
         == StockOf(m, k) - (if k == KeyOf(p) && Listed(m, k) then Amount(p) else 0.0)
    ensures k != KeyOf(p) ==> (Listed(StoreRemoved(m, p).contents, k) <==> Listed(m, k))
  {
    var c := p.category;
    if c in m && k.category == c {
      RemoveStock(m[c], p, k);
      assert InCategory(StoreRemoved(m, p).contents, c) == RemoveFrom(m[c], p).rest;
    } else if c in m {
      assert InCategory(StoreRemoved(m, p).contents, k.category) == InCategory(m, k.category);
    } else {
      assert StoreRemoved(m, p).contents == m;
      if k == KeyOf(p) {
        assert InCategory(m, k.category) == [];
      }
    }
  }

  // ---------------------------------------------------------------------------------
  // GetAllProducts

  /** A product of a listed category has its category among the names. */
  lemma {:induction false} FlattenKeys(names: seq<string>, m: map<string, seq<Product>>)
    requires Stocked(m)
    ensures forall k :: k in KeysOf(Flatten(names, m))
              <==> k.category in names && k in KeysOf(InCategory(m, k.category))
  {
    if names != [] {
      var init, c := names[..|names| - 1], names[|names| - 1];
      FlattenKeys(init, m);
      KeysOfConcat(Flatten(init, m), InCategory(m, c));
      forall k ensures k in KeysOf(Flatten(names, m))
                <==> k.category in names && k in KeysOf(InCategory(m, k.category))
      {
        assert k.category in names <==> k.category in init || k.category == c by {
          assert names == init + [c];
        }
      }
    }
  }

  /** Flattening distinct categories merges nothing: one entry per key. */
  lemma {:induction false} FlattenUnique(names: seq<string>, m: map<string, seq<Product>>)
    requires Stocked(m) && Distinct(names)
    ensures UniqueKeys(Flatten(names, m))
  {
    if names != [] {
      var init, c := names[..|names| - 1], names[|names| - 1];
      var a, b := Flatten(init, m), InCategory(m, c);
      FlattenUnique(init, m);
      FlattenKeys(init, m);
      forall i, j | 0 <= i < j < |a + b| ensures KeyOf((a + b)[i]) != KeyOf((a + b)[j]) {
        if j < |a| {
          assert (a + b)[i] == a[i] && (a + b)[j] == a[j];
        } else if i >= |a| {
          assert (a + b)[i] == b[i - |a|] && (a + b)[j] == b[j - |a|];
        } else {
          assert (a + b)[i] == a[i] && (a + b)[j] == b[j - |a|];
          assert KeyOf(a[i]) in KeysOf(a);
          assert KeyOf(b[j - |a|]) in KeysOf(b);
          assert c !in init;
        }
      }
    }
  }

  /** GetAllProducts holds as many entries as all the categories together. */
  lemma {:induction false} FlattenCount(names: seq<string>, m: map<string, seq<Product>>)
    requires Stocked(m) && Distinct(names)
    ensures |Flatten(names, m)| == CountSum(names, m)
    ensures |KeysOf(Flatten(names, m))| == CountSum(names, m)
  {
    if names != [] {
      var init, c := names[..|names| - 1], names[|names| - 1];
      assert Distinct(init);
      FlattenCount(init, m);
      if c in m {
        UniqueKeysCount(m[c]);
      }
      FlattenUnique(names, m);
      UniqueKeysCount(Flatten(names, m));
    }
  }

  /** The entry GetAllProducts copies next has a key it has not collected yet. */
  lemma FlattenNext(names: seq<string>, m: map<string, seq<Product>>, n: nat, j: nat)
    requires Stocked(m) && Distinct(names)
    requires n < |names| && names[n] in m && j < |m[names[n]]|
    ensures KeyOf(m[names[n]][j]) !in KeysOf(Flatten(names[..n], m) + m[names[n]][..j])
  {
    var c, s := names[n], m[names[n]];
    var k := KeyOf(s[j]);
    KeysOfConcat(Flatten(names[..n], m), s[..j]);
    FlattenKeys(names[..n], m);
    assert k in KeysOf(s);
    assert c !in names[..n];
  }

  /** One step of GetAllProducts' inner loop: adding the next entry of the current
      category appends it. */
  lemma FlattenStep(names: seq<string>, m: map<string, seq<Product>>, n: nat, j: nat)
    requires Stocked(m) && Distinct(names)
    requires n < |names| && names[n] in m && j < |m[names[n]]|
    ensures Added(Flatten(names[..n], m) + m[names[n]][..j], m[names[n]][j])
         == Flatten(names[..n], m) + m[names[n]][..j + 1]
  {
    var s := m[names[n]];
    FlattenNext(names, m, n, j);
    AddedFresh(Flatten(names[..n], m) + s[..j], s[j]);
    assert s[..j + 1] == s[..j] + [s[j]];
  }

  /** One step of GetAllProducts' outer loop: a whole category has been appended. */
  lemma FlattenGrow(names: seq<string>, m: map<string, seq<Product>>, n: nat)
    requires n < |names| && names[n] in m
    ensures Flatten(names[..n], m) + m[names[n]] == Flatten(names[..n + 1], m)
  {
    assert names[..n + 1][..n] == names[..n];
  }

  /** Appending an entry whose key is new is what Add does with it. */
  lemma AddedFresh(s: seq<Product>, p: Product)
    requires KeyOf(p) !in KeysOf(s)
    ensures Added(s, p) == s + [p]
  {
    FirstMatchKeys(s, p);
  }

  // ---------------------------------------------------------------------------------
  // The store object

  class Store {
    /** The category names, in the order the dictionary enumerates them. */
    var names: seq<string>
    var categories: map<string, ProductCollection>
    /** The entries of each category's collection. */
    ghost var contents: map<string, seq<Product>>

    ghost predicate Valid()
      reads this, categories.Values
    {
      && categories.Keys == contents.Keys
      && (forall c :: c in categories <==> c in names)
      && Distinct(names)
      && (forall c, d :: c in categories && d in categories && c != d ==> categories[c] != categories[d])
      && (forall c :: c in categories ==> categories[c].products == contents[c])
      && Stocked(contents)
    }

    constructor ()
      ensures Valid() && names == [] && contents == map[]
    {
      names := [];
      categories := map[];
      contents := map[];
    }

    method AddProduct(p: Product)
      requires Valid()
      modifies this, categories.Values
      ensures Valid()
      ensures contents == StoreAdded(old(contents), p)
      ensures names == if p.category in old(names) then old(names) else old(names) + [p.category]
      ensures forall c :: c in old(categories) ==> c in categories && categories[c] == old(categories)[c]
      ensures forall o :: o in categories.Values ==> o in old(categories.Values) || fresh(o)
    {
      ghost var m := contents;
      ghost var held := InCategory(m, p.category);
      StoreAddedStocked(m, p);
      if p.category !in categories {
        var created := new ProductCollection();
        categories := categories[p.category := created];
        names := names + [p.category];
      }
      var target := categories[p.category];
      assert target.products == held;
      target.Add(p);
      contents := m[p.category := target.products];
      assert contents == StoreAdded(m, p);
    }

    method RemoveProduct(p: Product) returns (raised: bool)
      requires Valid()
      modifies this, categories.Values
      ensures Valid()
      ensures names == old(names) && categories == old(categories)
      ensures Outcome(raised, contents) == StoreRemoved(old(contents), p)
    {
      ghost var m := contents;
      StoreRemovedStocked(m, p);
      raised := false;
      if p.category in categories {
        var target := categories[p.category];
        assert target.products == m[p.category];
        var status := target.Remove(p);
        raised := status == OverRemoval;
        contents := m[p.category := target.products];
        assert raised ==> contents == m;
      }
      assert Outcome(raised, contents) == StoreRemoved(m, p);
    }

    /** GetProductCategories: every category once, in dictionary order. */
    function GetProductCategories(): (r: seq<string>)
      reads this, categories.Values
      requires Valid()
      ensures r == names && Distinct(r)
      ensures forall c :: c in r <==> c in contents
    {
      names
    }

    /** GetProductsInCategory: a copy of the category's entries, or an empty list. */
    function GetProductsInCategory(c: string): (r: seq<Product>)
      reads this, categories.Values
      requires Valid()
      ensures r == InCategory(contents, c)
      ensures UniqueKeys(r) && Filed(r, c)
    {
      if c in categories then categories[c].products else []
    }

    method GetAllProducts() returns (all: ProductCollection)
      requires Valid()
      ensures fresh(all) && all.Valid()
      ensures all.products == Flatten(names, contents)
    {
      all := new ProductCollection();
      var n := 0;
      while n < |names|
        invariant 0 <= n <= |names| && fresh(all) && all.Valid()
        invariant all.products == Flatten(names[..n], contents)
      {
        var entries := categories[names[n]].products;
        var j := 0;
        while j < |entries|
          invariant 0 <= j <= |entries| && fresh(all) && all.Valid()
          invariant all.products == Flatten(names[..n], contents) + entries[..j]
        {
          FlattenStep(names, contents, n, j);
          all.Add(entries[j]);
          j := j + 1;
        }
        assert entries[..j] == entries;
        FlattenGrow(names, contents, n);
        n := n + 1;
      }
      assert names[..n] == names;
    }
  }
}
