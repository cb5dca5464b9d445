# Starbucks POS cashier cart — a Dafny model

This project models the logic of the cashier home screen of a point-of-sale app
(`index.tsx`). The screen loads the product catalog, lets the cashier press
"Add to Order" on a product, and shows the cart as a list of (product, quantity)
rows. The model has four parts. Each is written as pure functions over
immutable values.

- `Types`: products, the cart (`map<int, int>` from product id to quantity) and
  display items. `Qty` models `cart[id] || 0`. `InCart` models the truthiness
  test `if (cart[id])`, which means the key is present and its value is non-zero.
- `Images`: `resolveImageUri`. A missing or empty path gives the placeholder
  URL. A path starting with `http` is passed through. Any other path gets the
  fixed image-host prefix. The `http` test is a plain prefix test, so a
  relative path whose name starts with `http` is passed through unprefixed.
- `CatalogClient`: `loadProducts`, reduced to a pure function of the fetch
  outcome (`Failed`, a `null` body, or a record with `success` and `products`
  fields). JavaScript truthiness is applied to `success`. `Array.isArray` is
  applied to `products`.
- `CartStore`: `addToCart` over a `Session`. A session holds the in-memory cart,
  the durable key-value store as a map from key to cart snapshot, and a count
  of store writes. Sequences of presses are folded with `AddAll`.
- `CartProjection`: the effect that builds the cart display list. It appears
  both as the recursive `Project` and as the loop `ProjectItems`, which mirrors
  `forEach`/`push`.

The screen starts from an empty cart and never reads the `'cart'` key back.
A snapshot left by an earlier session can therefore disagree with the
in-memory cart until the first add that changes it
(`CartStore.StaleSnapshotAtMount`). After that the two agree
(`CartStore.StorageMatchesMemory`). The display test `if (cart[p.id])` keeps
any non-zero quantity, and the adds never produce a quantity below 1.

## Model

| member | source | states |
|---|---|---|
| Images.ResolveImageUri | index.tsx:44-49 | a null/undefined or empty path gives the placeholder URL; a path starting with "http" comes back unchanged; any other path comes back as the fixed base followed by the path |
| Images.ResolvedIsAbsolute | index.tsx:44-49 | every resolved URI, whatever the input, starts with "http" |
| Images.ResolveIdempotent | index.tsx:44-49 | resolving a resolved URI again returns it unchanged |
| Images.RelativeRoundTrip | index.tsx:48 | a relative path is recovered from its resolved URI by removing the base, so distinct relative paths get distinct URIs |
| CatalogClient.LoadProducts | index.tsx:66-84 | the stored list is `data.products` when `success` is truthy and `products` is an array, and the empty list for a thrown fetch or parse error, a null body, a falsy `success` or a non-array `products` |
| CatalogClient.LoadIsClassifyCollapsed | index.tsx:73-80 | the loaded list equals a reason-keeping classification of the response with every failure reason collapsed to the empty list; a response is accepted exactly when it classifies as loaded |
| CatalogClient.EmptyIsAmbiguous | index.tsx:73-80 | a genuinely empty catalog and each failure (fetch error, success false, non-array products) all give the same empty list |
| CartStore.Mount | index.tsx:57 | a mounted screen starts with an empty cart and no writes, and leaves the durable store as it was |
| CartStore.AddToCart | index.tsx:104-109 | at or above stock the session is unchanged and nothing is written; below stock the product's quantity (absent read as 0) grows by exactly 1, every other cart key keeps its value, the 'cart' key now holds the new cart, other store keys are untouched, and one write is counted |
| CartStore.AddKeepsWithinStock | index.tsx:105-106 | one add of a catalog product keeps every cart entry between 1 and the stock of some catalog product with that id |
| CartStore.AddAllKeepsWithinStock | index.tsx:105-106 | the stock bound is preserved by any sequence of adds of catalog products |
| CartStore.StockBoundFromMount | index.tsx:104-109 | from a fresh mount, after any presses on catalog products, every entry is between 1 and its product's stock (with unique ids: the stock of the one product carrying that id) |
| CartStore.NoStockNeverAdded | index.tsx:105 | an id whose catalog products all have stock at most 0 never gets a cart entry |
| CartStore.RepeatedAdds | index.tsx:105-106 | n presses on one product bring its quantity q to min(q + n, stock), and leave it at q when q is already at or above stock |
| CartStore.AddAllMonotone | index.tsx:106 | from any session, adds never remove a key or lower a quantity |
| CartStore.AddAllKeepsNonNegative | index.tsx:106 | a cart with no negative quantity never acquires one under adds |
| CartStore.AddAllKeepsMirror | index.tsx:106-108 | once the stored snapshot equals the cart, it equals the cart after any further adds |
| CartStore.StorageMatchesMemory | index.tsx:105-108 | after any presses that changed the cart, or that issued any write, the stored snapshot equals the in-memory cart; presses that wrote nothing left the whole session unchanged |
| CartStore.StaleSnapshotAtMount | index.tsx:57 | any non-empty snapshot from an earlier session disagrees with the freshly mounted empty cart |
| CartStore.ExampleStaleSnapshot | index.tsx:57 | the snapshot `{7: 3}` disagrees at mount and agrees with the cart after the first effective add |
| CartStore.ExampleTwoInStock | index.tsx:104-109 | with stock 2, three presses give quantity 2 and two writes; a press on a product with stock 0 changes nothing |
| CartProjection.Project | index.tsx:92-102 | the display list is no longer than the catalog; each row's product is in the catalog, its id has a non-zero cart quantity, and the row carries exactly that quantity |
| CartProjection.ProjectAppend | index.tsx:93-101 | projecting a concatenated catalog gives the concatenation of the projections |
| CartProjection.ProjectMembership | index.tsx:95-98 | a product is displayed if and only if it is in the catalog and its cart quantity is non-zero |
| CartProjection.ProjectPreservesOrder | index.tsx:95-98 | the displayed products are a subsequence of the catalog, in catalog order |
| CartProjection.DropsUnknownIds | index.tsx:95-98 | a cart entry whose id no catalog product carries is not displayed |
| CartProjection.ProjectItems | index.tsx:93-101 | the forEach/push loop builds exactly the projection |
| CartProjection.DisplayedWithinStock | index.tsx:92-109 | from a fresh mount and any presses on an id-unique catalog, every displayed quantity is between 1 and the displayed product's stock |

## Left out

- Network and JSON decoding (index.tsx:69-70): the model starts from the already decoded outcome. Array elements are taken to be products; their field decoding is not modelled.
- AsyncStorage serialisation: the store holds cart snapshots directly, not JSON strings.
- A rejected `AsyncStorage.setItem` promise (index.tsx:108): a storage I/O failure after the in-memory update is not modelled.
- React state batching: `addToCart` reads the `cart` of the last render. Two presses before a re-render both read the same cart. The model treats each press as seeing the previous press's result.
- The `loading` flags, effect re-trigger order and last-response-wins refetches: scheduler and concurrency concerns.
- Product fields as non-integers: `id` and `stock` are integers. A missing, fractional or NaN stock, for which the JavaScript comparison behaves differently, is not modelled. Prices are only displayed.
- The `Array.isArray(products)` guard at index.tsx:94: the catalog is always a sequence in the model, so the guard always holds.
- The "Out of Stock" disabled button (index.tsx:145-150): UI. `AddToCart` refuses such products anyway.
- Sidebar animation and menu items (index.tsx:112-130), and price formatting (index.tsx:142): UI and floating-point display.
- Reports.tsx: token check, redirect, alerts and date paging. Paging goes through the JavaScript `Date` library and depends on the time zone.
- Receipt.tsx: a fetch-then-render screen with floating-point money display.
- _layout.tsx: navigation chrome.
