/** `addToCart`: the stock-bounded add and the persist-after-mutate discipline. */
module CartStore {
  import opened Types

  /** The durable key the cart snapshot is written under. */
  const CartKey: string := "cart"

  /** The screen's cart together with the durable key-value store (holding
      snapshots by key; serialisation is not modelled) and the number of
      writes issued to it. */
  datatype Session = Session(cart: Cart, storage: map<string, Cart>, writes: nat)

  /** A freshly mounted screen: the cart starts empty and whatever the store
      already holds is left as it is. */
  function Mount(storage: map<string, Cart>): (s: Session)
    ensures s.cart == map[] && s.storage == storage && s.writes == 0
  {
    Session(map[], storage, 0)
  }

  /** Add one unit of `p`, unless its cart quantity already reached its stock. */
  function AddToCart(s: Session, p: Product): (s': Session)
    ensures Qty(s.cart, p.id) >= p.stock ==> s' == s
    ensures Qty(s.cart, p.id) < p.stock ==>
              && s'.cart.Keys == s.cart.Keys + {p.id}
              && s'.cart[p.id] == Qty(s.cart, p.id) + 1
              && (forall k :: k in s.cart && k != p.id ==> s'.cart[k] == s.cart[k])
              && s'.storage.Keys == s.storage.Keys + {CartKey}
              && s'.storage[CartKey] == s'.cart
              && (forall key :: key in s.storage && key != CartKey ==> s'.storage[key] == s.storage[key])
              && s'.writes == s.writes + 1
  {
    var q := Qty(s.cart, p.id);
    if q >= p.stock then s
    else
      var next := s.cart[p.id := q + 1];
      Session(next, s.storage[CartKey := next], s.writes + 1)
  }

  /** A sequence of presses of "Add to Order", in order. */
  function AddAll(s: Session, presses: seq<Product>): Session
    decreases |presses|
  {
    if presses == [] then s else AddAll(AddToCart(s, presses[0]), presses[1..])
  }

  /** `n` presses on the same product. */
  function Copies(p: Product, n: nat): (ps: seq<Product>)
    ensures |ps| == n && forall j :: 0 <= j < n ==> ps[j] == p
  {
    if n == 0 then [] else [p] + Copies(p, n - 1)
  }

  /** The stored snapshot equals the in-memory cart. */
  predicate Mirrors(s: Session)
  {
    CartKey in s.storage && s.storage[CartKey] == s.cart
  }

  /** Every cart entry is at least 1 and at most the stock of some catalog
      product with that id. */
  ghost predicate WithinStock(cart: Cart, catalog: seq<Product>)
  {
    forall k :: k in cart ==>
      1 <= cart[k] && exists i :: 0 <= i < |catalog| && catalog[i].id == k && cart[k] <= catalog[i].stock
  }

  ghost predicate FromCatalog(presses: seq<Product>, catalog: seq<Product>)
  {
    forall j :: 0 <= j < |presses| ==> presses[j] in catalog
  }

  /** A single add keeps the stock bound for a product taken from the catalog. */
  lemma AddKeepsWithinStock(s: Session, p: Product, catalog: seq<Product>)
    requires WithinStock(s.cart, catalog)
    requires p in catalog
    ensures WithinStock(AddToCart(s, p).cart, catalog)
  {
  }

  lemma {:induction false} AddAllKeepsWithinStock(s: Session, presses: seq<Product>, catalog: seq<Product>)
    requires WithinStock(s.cart, catalog)
    requires FromCatalog(presses, catalog)
    ensures WithinStock(AddAll(s, presses).cart, catalog)
    decreases |presses|
  {
    if presses != [] {
      AddKeepsWithinStock(s, presses[0], catalog);
      AddAllKeepsWithinStock(AddToCart(s, presses[0]), presses[1..], catalog);
    }
  }

  /** From a fresh mount, any presses on catalog products leave every entry
      between 1 and its product's stock; with unique ids the bound is that of
      the one product carrying the id. */
  lemma StockBoundFromMount(storage: map<string, Cart>, presses: seq<Product>, catalog: seq<Product>)
    requires FromCatalog(presses, catalog)
    ensures WithinStock(AddAll(Mount(storage), presses).cart, catalog)
    ensures UniqueIds(catalog) ==>
              var c := AddAll(Mount(storage), presses).cart;
              forall i :: 0 <= i < |catalog| && catalog[i].id in c ==> 1 <= c[catalog[i].id] <= catalog[i].stock
  {
    AddAllKeepsWithinStock(Mount(storage), presses, catalog);
  }

  /** A product id whose every catalog product has no stock never enters the cart. */
  lemma NoStockNeverAdded(storage: map<string, Cart>, presses: seq<Product>, catalog: seq<Product>, id: int)
    requires FromCatalog(presses, catalog)
    requires forall i :: 0 <= i < |catalog| && catalog[i].id == id ==> catalog[i].stock <= 0
    ensures id !in AddAll(Mount(storage), presses).cart
  {
    StockBoundFromMount(storage, presses, catalog);
  }

  /** `n` presses on one product raise its quantity to `min(q + n, stock)`,
      or leave it alone when it is already at or above stock. */
  lemma {:induction false} RepeatedAdds(s: Session, p: Product, n: nat)
    ensures var q := Qty(s.cart, p.id);
            Qty(AddAll(s, Copies(p, n)).cart, p.id) == if q >= p.stock then q else if q + n <= p.stock then q + n else p.stock
    decreases n
  {
    if n > 0 {
      assert Copies(p, n)[1..] == Copies(p, n - 1);
      RepeatedAdds(AddToCart(s, p), p, n - 1);
    }
  }

  /** Adding never lowers any quantity and never removes a key. */
  lemma {:induction false} AddAllMonotone(s: Session, presses: seq<Product>, k: int)
    ensures k in s.cart ==> k in AddAll(s, presses).cart
    ensures Qty(s.cart, k) <= Qty(AddAll(s, presses).cart, k)
    decreases |presses|
  {
    if presses != [] {
      AddAllMonotone(AddToCart(s, presses[0]), presses[1..], k);
    }
  }

  /** A cart with no negative quantity never acquires one. */
  lemma {:induction false} AddAllKeepsNonNegative(s: Session, presses: seq<Product>)
    requires forall key :: key in s.cart ==> s.cart[key] >= 0
    ensures forall key :: key in AddAll(s, presses).cart ==> AddAll(s, presses).cart[key] >= 0
    decreases |presses|
  {
    if presses != [] {
      AddAllKeepsNonNegative(AddToCart(s, presses[0]), presses[1..]);
    }
  }

  /** Once the snapshot mirrors the cart, every further add keeps it so. */
  lemma {:induction false} AddAllKeepsMirror(s: Session, presses: seq<Product>)
    requires Mirrors(s)
    ensures Mirrors(AddAll(s, presses))
    decreases |presses|
  {
    if presses != [] {
      AddAllKeepsMirror(AddToCart(s, presses[0]), presses[1..]);
    }
  }

  /** After any presses that changed the cart, the snapshot equals the cart;
      if no press changed it, nothing was written. */
  lemma {:induction false} StorageMatchesMemory(s: Session, presses: seq<Product>)
    ensures AddAll(s, presses).cart != s.cart ==> Mirrors(AddAll(s, presses))
    ensures AddAll(s, presses).writes > s.writes ==> Mirrors(AddAll(s, presses))
    ensures AddAll(s, presses).writes == s.writes ==> AddAll(s, presses) == s
    ensures AddAll(s, presses).writes >= s.writes
    decreases |presses|
  {
    if presses != [] {
      var t := AddToCart(s, presses[0]);
      StorageMatchesMemory(t, presses[1..]);
      if t != s {
        AddAllKeepsMirror(t, presses[1..]);
      }
    }
  }

  /** The cart is never read back from the store at mount, so any non-empty
      snapshot left by an earlier session disagrees with the fresh, empty cart. */
  lemma StaleSnapshotAtMount(storage: map<string, Cart>)
    requires CartKey in storage && storage[CartKey] != map[]
    ensures !Mirrors(Mount(storage))
  {
  }

  /** A concrete stale snapshot `{7: 3}`: it disagrees at mount and agrees
      after the first effective add. */
  lemma ExampleStaleSnapshot()
    ensures !Mirrors(Mount(map[CartKey := map[7 := 3]]))
    ensures var p := Product(7, "Latte", 120.0, None, 5);
            Mirrors(AddToCart(Mount(map[CartKey := map[7 := 3]]), p))
  {
    var stale: Cart := map[7 := 3];
    assert 7 in stale && 7 !in Mount(map[CartKey := stale]).cart;
  }

  /** Two units of a product with stock 2, then a third press and a press on
      an out-of-stock product: the cart holds `{1: 2}` and three presses wrote. */
  lemma ExampleTwoInStock()
    ensures var a := Product(1, "Americano", 95.0, None, 2);
            var b := Product(2, "Mocha", 150.0, None, 0);
            var s := AddAll(Mount(map[]), [a, a, a, b]);
            s.cart == map[1 := 2] && s.writes == 2 && Mirrors(s)
  {
    var a := Product(1, "Americano", 95.0, None, 2);
    var b := Product(2, "Mocha", 150.0, None, 0);
    var s0 := Mount(map[]);
    var s1 := AddToCart(s0, a);
    var s2 := AddToCart(s1, a);
    assert s2.cart == map[1 := 2] && s2.writes == 2 && Mirrors(s2);
    assert AddToCart(s2, a) == s2;
    assert AddToCart(s2, b) == s2;
    calc {
      AddAll(s0, [a, a, a, b]);
      { assert [a, a, a, b][1..] == [a, a, b]; }
      AddAll(s1, [a, a, b]);
      { assert [a, a, b][1..] == [a, b]; }
      AddAll(s2, [a, b]);
      { assert [a, b][1..] == [b]; }
      AddAll(s2, [b]);
      { assert [b][1..] == []; }
      AddAll(s2, []);
    }
  }
}
