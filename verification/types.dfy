/** Entities of the cashier screen: catalog products, the cart map and the
    display items derived from it. */
module Types {

  datatype Option<+T> = None | Some(value: T)

  /** A catalog product as the products endpoint delivers it. The price is only
      displayed, never computed with, so it is kept as an opaque real. */
  datatype Product = Product(id: int, name: string, price: real, imagePath: Option<string>, stock: int)

  /** One row of the cart display: a catalog product and its cart quantity. */
  datatype CartItem = CartItem(product: Product, quantity: int)

  /** The cart: product id to requested quantity. */
  type Cart = map<int, int>

  /** `cart[id] || 0`: the quantity held for `id`, with an absent key read as 0. */
  function Qty(cart: Cart, id: int): int
  {
    if id in cart then cart[id] else 0
  }

  /** `if (cart[id])`: the key is present and its number is truthy, i.e. non-zero. */
  predicate InCart(cart: Cart, id: int)
  {
    id in cart && cart[id] != 0
  }

  /** Product ids are primary keys on the server side. */
  ghost predicate UniqueIds(catalog: seq<Product>)
  {
    forall i, j :: 0 <= i < j < |catalog| ==> catalog[i].id != catalog[j].id
  }
}
