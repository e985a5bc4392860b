# GoMarketplace cart, modelled in Dafny

A model of the shopping cart the GoMarketplace mobile app keeps in
`src/hooks/cart.tsx`. The cart is a list of product lines (`id`, `title`,
`image_url`, `price`, `quantity`). Three operations rewrite the list:

- `addToCart` raises the quantity of an item that is already in the list.
  A new item is appended with quantity 1.
- `increment` raises the quantity of the lines with a given id.
- `decrement` removes the id when its first line is at quantity 1.
  Otherwise it lowers the quantity by one.

Every operation also overwrites the storage slot `@GoMarketplace:products`.

The model is one module, `Cart` (`cart.dfy`):

- The three list rewrites are pure functions over `seq<Product>`: `Added`, `Incremented` and `Decremented`.
- They are built from `FindIndex` (JavaScript's `find`), `MapMatching` (`map` with an id test) and `RemoveMatching` (`filter`).
- The class `CartProvider` holds the current list in `products` and the storage slot in `stored`.
- Its methods `AddToCart`, `Increment` and `Decrement` replace `products` with the rewritten list.

The code serialises the outer `products` binding, not the freshly computed
list. So the slot always receives the list as it was BEFORE the operation,
and it lags one operation behind the in-memory list. The methods reproduce
this: `stored == Some(old(products))`. The evident intent is to persist the
freshly computed `newProducts`. The model follows the code as written
(src/hooks/cart.tsx:60, 76 and 99).

Two faithful details of `decrement`:

- The record it writes back, `{ ...rest, quantity: quantity - 1 }`, is built from the FIRST matching line. The `map` then replaces EVERY line with that id by this record. `Decremented` says so. With unique ids, `DecrementedLowers` shows that this is exactly "lower that line's quantity by one".
- For an absent id, `find` falls back to `{}`. Its `quantity` is `undefined`, which is never `=== 1`. The `map` then matches no line, so the list is unchanged.

The cart's invariants are that ids are pairwise distinct (`UniqueIds`) and
that every quantity is at least 1 (`PositiveQuantities`). Each rewrite
preserves both. `CartProvider.Valid` bundles them, and each method promises
`old(Valid()) ==> Valid()`.

## Model

| member | source | states |
|---|---|---|
| Cart.FindIndex | src/hooks/cart.tsx:45 | the result is absent exactly when no line has the id; otherwise it is the index of a line with the id, and no earlier line has it (the first match, as `find` returns) |
| Cart.FindIndexUnique | src/hooks/cart.tsx:86 | with unique ids, the first match for a line's id is that line |
| Cart.MapMatching | src/hooks/cart.tsx:50-52 | `map` with an id test: same length, each line with the id is replaced by `f` of it, every other line is kept as it is |
| Cart.RemoveMatching | src/hooks/cart.tsx:90 | `filter` by id: never longer, no line with the id remains, a line is in the result exactly when it is in the input with another id, and an absent id leaves the list unchanged |
| Cart.RemoveMatchingConcat | src/hooks/cart.tsx:90 | filtering distributes over concatenation, so the lines that remain keep their original order |
| Cart.RemoveMatchingCounts | src/hooks/cart.tsx:90 | for every list, each line with another id occurs in the filtered list exactly as often as in the input, and lines with the id not at all |
| Cart.RemoveMatchingAt | src/hooks/cart.tsx:90 | with unique ids, filtering out the id of line k yields the list with exactly position k deleted |
| Cart.RemoveMatchingKeepsIdsUnique | src/hooks/cart.tsx:90 | filtering keeps ids pairwise distinct |
| Cart.Added | src/hooks/cart.tsx:45-55 | a present id: same length, only the quantity changes, by +1 exactly on lines with that id; an absent id: the old list followed by one line with the item's id, title, image and price and quantity 1 |
| Cart.AddedExisting | src/hooks/cart.tsx:49-52 | with unique ids, adding an item already at position k is the old list with only line k's quantity raised by one |
| Cart.Incremented | src/hooks/cart.tsx:69-71 | same length and order, only quantities change, by +1 exactly on lines with the id; an absent id leaves the list unchanged |
| Cart.IncrementedAt | src/hooks/cart.tsx:68-72 | with unique ids, incrementing the id of line k raises only line k's quantity by one |
| Cart.Decremented | src/hooks/cart.tsx:85-95 | an absent id leaves the list unchanged; first match at quantity 1: the result is the filtered list (other lines in their original order and multiplicity), so no line with the id remains and every other line is kept; otherwise: same length, other lines kept in place, each line with the id becomes the first match with its quantity lowered by one |
| Cart.DecrementedRemoves | src/hooks/cart.tsx:85-90 | with unique ids, decrementing line k at quantity 1 deletes exactly position k and keeps the rest in order |
| Cart.DecrementedLowers | src/hooks/cart.tsx:91-95 | with unique ids, decrementing line k at a quantity other than 1 lowers only line k's quantity by one and keeps its other fields |
| Cart.AddedKeepsIdsUnique | src/hooks/cart.tsx:45-55 | adding keeps ids pairwise distinct |
| Cart.IncrementedKeepsIdsUnique | src/hooks/cart.tsx:69-71 | incrementing keeps ids pairwise distinct |
| Cart.DecrementedKeepsIdsUnique | src/hooks/cart.tsx:85-95 | decrementing keeps ids pairwise distinct |
| Cart.AddedKeepsQuantitiesPositive | src/hooks/cart.tsx:49-55 | if every quantity is at least 1 before adding, it is after |
| Cart.IncrementedKeepsQuantitiesPositive | src/hooks/cart.tsx:69-71 | if every quantity is at least 1 before incrementing, it is after |
| Cart.DecrementedKeepsQuantitiesPositive | src/hooks/cart.tsx:85-95 | if every quantity is at least 1 before decrementing, it is after (a line at 1 is removed, never lowered to 0) |
| Cart.CartProvider.constructor | src/hooks/cart.tsx:29 | the provider starts with an empty list, and the slot holds whatever the device held; the invariants hold |
| Cart.CartProvider.AddToCart | src/hooks/cart.tsx:43-64 | the list becomes `Added` of the old list; the slot receives the old list, not the new one; the invariants are preserved |
| Cart.CartProvider.Increment | src/hooks/cart.tsx:66-81 | the list becomes `Incremented` of the old list; the slot receives the old list; the invariants are preserved |
| Cart.CartProvider.Decrement | src/hooks/cart.tsx:83-104 | the list becomes `Decremented` of the old list; the slot receives the old list; the invariants are preserved |

## Left out

- React plumbing is left out: the context, `useState`, `useCallback`, `useMemo`, the provider component and `useCart`'s error outside a provider (src/hooks/cart.tsx:26-29, 106-122). None of it holds list logic.
- The startup load from storage and its JSON parsing (src/hooks/cart.tsx:31-41) are left out. The provider starts with an empty list, and the load that may replace it is not modelled.
- JSON serialisation and the asynchronous storage call are left out. The slot is a plain `Option<seq<Product>>` field. `None` means nothing has been written yet. A failed write is not modelled.
- Overlapping asynchronous calls are left out. So are the stale-closure races they can cause. Each method runs to completion on the current state.
- `price` and `quantity` are JavaScript numbers (floating point). The model carries `price` as an opaque `int` that is copied unchanged. `quantity` is an unbounded `int`, so there is no floating-point rounding.
- `title` and `image_url` are opaque strings. `image_url` is named `imageUrl`.
- Reading the list (`products` in the context value, src/hooks/cart.tsx:107) is plain field access and has no member of its own.
