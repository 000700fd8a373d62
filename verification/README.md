# Shopping-cart state of the GoMarketplace app, in Dafny

The app's cart hook (`src/hooks/cart.tsx`) keeps an ordered list of cart lines
(product id, title, image URL, price, quantity) in memory and writes the whole
list to the device's key/value storage under the key `@GoMarketplace:products`
after every change. Three operations change the cart:

- `increment(id)` adds one to the quantity of the lines whose id is `id`;
- `decrement(id)` subtracts one from those lines, but only while the quantity is above one;
- `addToCart(product)` appends the product with quantity one when no line has its id,
  and otherwise hands over to `increment`.

This project models those operations as pure functions on `seq<Line>`
(module `CartOps`, over the data model in `CartLines`), and the provider's
state, the in-memory snapshot together with the storage map, as an immutable
`Store` record (module `CartStore`). Every mutation goes through
`UpdateProducts`, which writes the new snapshot under the storage key and sets
the in-memory cart to the same value.

Proved about the model:

- `increment` and `decrement` keep the length, order, ids and all other fields of
  the cart; only matching lines change, and only in their quantity. `addToCart`
  either does the same (as `increment`) or only appends one line;
- an id that is not in the cart makes `increment` and `decrement` no-ops;
- `decrement` never drops a quantity below one and never removes a line;
- `addToCart` of a new product appends exactly one line at the end with quantity one,
  and of a known product it is `increment`;
- all three keep the two cart invariants: ids are unique and every quantity is at least one.
  From the initial empty cart, before any snapshot is loaded, any sequence of actions
  keeps both; after a load, they are kept when the loaded snapshot meets them;
- on carts whose quantities are at least one, `decrement` undoes `increment`,
  but `increment` does not undo `decrement` on a line holding a single item;
- on a cart with unique ids, each `addToCart` adds exactly one item to the cart's
  total (with duplicated ids it adds one per matching line, as `increment` does);
- after any action the stored snapshot equals the in-memory cart, every other
  storage key is untouched, and loading the snapshot on the next start reproduces that cart.

`increment` and `decrement` map over every line whose id matches. With unique
ids, which the operations maintain, that is at most one line. A snapshot loaded
from storage is not checked and may hold duplicates.

Files: `wrappers.dfy` (`Option`), `cart_lines.dfy`, `cart_ops.dfy`, `cart_store.dfy`.

## Model

| member | source | states |
|---|---|---|
| CartOps.Increment | src/hooks/cart.tsx:56-60 | same length and same product in every position; a line with the id gains exactly one item; every other line is unchanged |
| CartOps.Decrement | src/hooks/cart.tsx:69-73 | same length and products; a matching line above one loses exactly one item; a non-matching line or one at quantity one or less is unchanged |
| CartLines.NewLine | src/hooks/cart.tsx:88 | the appended line carries exactly the product's id, title, image URL and price, with quantity one |
| CartOps.Find | src/hooks/cart.tsx:83-85 | returns nothing exactly when no line has the id; otherwise returns the first line that has it |
| CartOps.AddToCart | src/hooks/cart.tsx:83-92 | an unknown id appends the product's new line to the cart; a known id gives the result of increment |
| CartOps.IncrementAbsent | src/hooks/cart.tsx:56-60 | increment of an id not in the cart returns the cart unchanged |
| CartOps.IncrementOnlyTarget | src/hooks/cart.tsx:56-60 | with unique ids, increment changes only the targeted line, raising its quantity by one |
| CartOps.IncrementValid | src/hooks/cart.tsx:56-60 | increment keeps ids unique and quantities at least one |
| CartOps.IncrementTotal | src/hooks/cart.tsx:56-60 | increment adds to the cart's item total one item per line carrying the id |
| CartOps.DecrementAbsent | src/hooks/cart.tsx:69-73 | decrement of an id not in the cart returns the cart unchanged |
| CartOps.DecrementOnlyTarget | src/hooks/cart.tsx:69-73 | with unique ids, decrement lowers only the targeted line by one when above one, and leaves the whole cart unchanged at quantity one |
| CartOps.DecrementValid | src/hooks/cart.tsx:69-73 | decrement keeps ids unique and never lets a quantity fall below one |
| CartOps.IncrementDecrementRoundTrip | src/hooks/cart.tsx:56-73 | on a cart with all quantities at least one, decrement after increment of the same id gives back the original cart |
| CartOps.DecrementIncrementNotInverse | src/hooks/cart.tsx:69-73 | on a line with a single item, increment after decrement does not give back the original cart |
| CartOps.AddToCartNew | src/hooks/cart.tsx:87-90 | a new product grows the cart by one line at the end, holding the product with quantity one, with the old cart as prefix |
| CartOps.AddToCartExisting | src/hooks/cart.tsx:91-92 | with unique ids, a known product keeps the length and raises only its line's quantity by one |
| CartOps.AddToCartValid | src/hooks/cart.tsx:83-92 | addToCart keeps ids unique and quantities at least one |
| CartOps.AddToCartTotal | src/hooks/cart.tsx:83-92 | with unique ids, every addToCart adds exactly one item to the cart's total |
| CartLines.OccurrencesUnique | src/hooks/cart.tsx:83-85 | with unique ids, an id names exactly one line when present and none otherwise |
| CartStore.Initial | src/hooks/cart.tsx:29 | the provider starts with no product in its cart, which therefore meets the cart invariants, and leaves storage as the device holds it |
| CartStore.Load | src/hooks/cart.tsx:32-39 | a stored snapshot becomes the in-memory cart; with nothing stored the state is unchanged; storage is only read |
| CartStore.UpdateProducts | src/hooks/cart.tsx:45-52 | the new snapshot is both stored under the cart key and the in-memory cart; other storage keys are untouched |
| CartStore.IncrementStep | src/hooks/cart.tsx:54-65 | the provider's increment stores and shows the incremented cart and touches no other storage key |
| CartStore.DecrementStep | src/hooks/cart.tsx:67-78 | the provider's decrement stores and shows the decremented cart and touches no other storage key |
| CartStore.AddToCartStep | src/hooks/cart.tsx:80-96 | the provider's addToCart stores and shows the cart addToCart computes, on both branches, and touches no other storage key |
| CartStore.Step | src/hooks/cart.tsx:45-96 | after any action the stored snapshot equals the in-memory cart and every other storage key is untouched |
| CartStore.RunSynced | src/hooks/cart.tsx:45-96 | after any non-empty sequence of actions the stored snapshot equals the in-memory cart |
| CartStore.StepValid | src/hooks/cart.tsx:54-96 | every action keeps the cart invariants |
| CartStore.RunValid | src/hooks/cart.tsx:54-96 | every sequence of actions keeps the cart invariants |
| CartStore.ReachableValid | src/hooks/cart.tsx:29-43 | from the initial empty cart, whatever the device holds, every sequence of actions keeps the invariants; after loading a snapshot they are kept when that snapshot satisfies them |
| CartStore.ReloadReproduces | src/hooks/cart.tsx:32-51 | the snapshot an action persists is what loading on the next start puts in memory |

## Left out

- Storage is a map from keys to carts: the JSON `stringify`/`parse` of a snapshot is taken to be exact, and read or write failures of the storage library are not modelled.
- Load: the source treats a stored empty string like a missing value; a stored snapshot is never empty, so the model has only "present" and "absent".
- Load: the stored snapshot is not validated by the source, so the model does not assume it satisfies the cart invariants; ReachableValid makes it the hypothesis of its statement about loaded carts only.
- The React context, hooks and the `useCart` check for a missing provider are user-interface plumbing, not cart logic.
- Actions are applied one after another. The unawaited `increment` inside `addToCart`, the load that may finish after a mutation, and the lost updates when two mutations read the same stale snapshot are concurrency behaviour and are not modelled.
- Prices are JavaScript numbers that are only copied; they are modelled as `real` and never computed on.
- Quantities are unbounded integers; the loss of precision of JavaScript numbers above 2^53 is not modelled.
