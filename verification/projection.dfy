/** The effect that derives the cart display list from the catalog and the cart. */
module CartProjection {
  import opened Types
  import CartStore

  /** Walk the catalog in order, keeping each product whose cart quantity is
      truthy, paired with exactly that quantity. */
  function Project(products: seq<Product>, cart: Cart): (items: seq<CartItem>)
    ensures |items| <= |products|
    ensures forall j :: 0 <= j < |items| ==>
              && items[j].product in products
              && InCart(cart, items[j].product.id)
              && items[j].quantity == cart[items[j].product.id]
  {
    if products == [] then []
    else
      var p := products[0];
      (if InCart(cart, p.id) then [CartItem(p, cart[p.id])] else []) + Project(products[1..], cart)
  }

  function ProductsOf(items: seq<CartItem>): (ps: seq<Product>)
    ensures |ps| == |items| && forall j :: 0 <= j < |items| ==> ps[j] == items[j].product
  {
    if items == [] then [] else [items[0].product] + ProductsOf(items[1..])
  }

  /** `a` is obtained from `b` by deleting elements, order kept. */
  ghost predicate IsSubsequence<T>(a: seq<T>, b: seq<T>)
    decreases |b|
  {
    if a == [] then true
    else if b == [] then false
    else (a[0] == b[0] && IsSubsequence(a[1..], b[1..])) || IsSubsequence(a, b[1..])
  }

  /** Projection distributes over concatenation of catalogs: together with the
      one-product case this pins the output down completely. */
  lemma {:induction false} ProjectAppend(a: seq<Product>, b: seq<Product>, cart: Cart)
    ensures Project(a + b, cart) == Project(a, cart) + Project(b, cart)
    decreases |a|
  {
    if a != [] {
      assert (a + b)[1..] == a[1..] + b;
      ProjectAppend(a[1..], b, cart);
    } else {
      assert a + b == b;
    }
  }

  /** A product appears in the display list exactly when it is in the catalog
      and its cart quantity is truthy. */
  lemma {:induction false} ProjectMembership(products: seq<Product>, cart: Cart, p: Product)
    ensures p in ProductsOf(Project(products, cart)) <==> p in products && InCart(cart, p.id)
    decreases |products|
  {
    if products != [] {
      ProjectMembership(products[1..], cart, p);
      var head := if InCart(cart, products[0].id) then [CartItem(products[0], cart[products[0].id])] else [];
      var rest := Project(products[1..], cart);
      assert ProductsOf(head + rest) == ProductsOf(head) + ProductsOf(rest);
      assert products == [products[0]] + products[1..];
    }
  }

  /** The displayed products are the catalog with some products deleted and
      the catalog order kept. */
  lemma {:induction false} ProjectPreservesOrder(products: seq<Product>, cart: Cart)
    ensures IsSubsequence(ProductsOf(Project(products, cart)), products)
    decreases |products|
  {
    if products != [] {
      ProjectPreservesOrder(products[1..], cart);
      var rest := ProductsOf(Project(products[1..], cart));
      var out := ProductsOf(Project(products, cart));
      if InCart(cart, products[0].id) {
        assert out == [products[0]] + rest;
        assert out[1..] == rest;
      } else {
        assert out == rest;
        if out != [] {
          assert IsSubsequence(out, products[1..]);
        }
      }
    }
  }

  /** A cart entry whose id no catalog product carries is not displayed. */
  lemma DropsUnknownIds(products: seq<Product>, cart: Cart, id: int)
    requires forall i :: 0 <= i < |products| ==> products[i].id != id
    ensures forall j :: 0 <= j < |Project(products, cart)| ==> Project(products, cart)[j].product.id != id
  {
  }

  /** The effect's loop: `forEach` over the catalog, pushing each kept product. */
  method ProjectItems(products: seq<Product>, cart: Cart) returns (items: seq<CartItem>)
    ensures items == Project(products, cart)
  {
    items := [];
    var i := 0;
    while i < |products|
      invariant 0 <= i <= |products|
      invariant items == Project(products[..i], cart)
    {
      var p := products[i];
      if p.id in cart && cart[p.id] != 0 {
        items := items + [CartItem(p, cart[p.id])];
      }
      ProjectAppend(products[..i], [p], cart);
      assert products[..i + 1] == products[..i] + [p];
      i := i + 1;
    }
    assert products[..|products|] == products;
  }

  /** From a fresh mount and any presses on products of an id-unique catalog,
      every displayed quantity lies between 1 and the displayed product's stock. */
  lemma DisplayedWithinStock(storage: map<string, Cart>, presses: seq<Product>, catalog: seq<Product>)
    requires CartStore.FromCatalog(presses, catalog)
    requires UniqueIds(catalog)
    ensures var items := Project(catalog, CartStore.AddAll(CartStore.Mount(storage), presses).cart);
            forall j :: 0 <= j < |items| ==> 1 <= items[j].quantity <= items[j].product.stock
  {
    var cart := CartStore.AddAll(CartStore.Mount(storage), presses).cart;
    CartStore.StockBoundFromMount(storage, presses, catalog);
    var items := Project(catalog, cart);
    forall j | 0 <= j < |items|
      ensures 1 <= items[j].quantity <= items[j].product.stock
    {
      var i :| 0 <= i < |catalog| && catalog[i] == items[j].product;
    }
  }
}
