# Cart store of the goMarketplace app, in Dafny

This project models the shopping-cart provider of the goMarketplace mobile storefront
(`src/hooks/cart.tsx`). The cart is an ordered list of line items keyed by `id`. It has
three operations:

- `addToCart` raises the quantity of an item already in the cart, or appends the new item with quantity 1.
- `increment` adds 1 to the quantity of the item with a given id.
- `decrement` subtracts 1 from that quantity. It has no lower bound and never removes the item.

After a change, each operation hands a list to `AsyncStorage.setItem`.

Two modules:

- `CartList` (`cart_list.dfy`) works on values. A `LineItem` datatype is one entry. `Find` is
  `products.find`, given as the position of the first match. `ReplaceById` is the `products.map` that
  rebuilds the list. `Added` and `Stepped` are the lists the operations hand to `setProducts`.
  The lemmas about them state the cart's properties.
- `CartHook` (`cart_hook.dfy`) works on objects, as the source does. A line item is an `Item`
  object whose `quantity` the operations change in place. `CartStore` holds `products: seq<Item>`
  and a ghost log `writes` of every list handed to `AsyncStorage.setItem`. Its methods
  `AddToCart`, `Increment` and `Decrement` are proved against `Added` and `Stepped`. `UseCart` is
  the provider-presence check.

What gets written to storage is the list the operation captured when it was created
(`JSON.stringify(products)`). It is read after the found object was changed in place, so:

- In the branches where the id is found, the write shows the new quantity. When ids are
  distinct, it equals the new in-memory list.
- In the branch that appends a new item, the write is the list from before the call. It lacks
  the new item.

The model keeps this observed behaviour. The comments at src/hooks/cart.tsx:73-84 say the new
product is saved "on the cart with the others" and then "on Async Storage", so the new list was
evidently meant to be written. The code writes the pre-call `products` instead, and the model
follows the code.

With duplicate ids, which only a loaded blob can contain, `map` puts the found object at every
position with that id. The write then shows the change only where that same object sits.
`AfterInPlaceChange` states this exactly. Each method also states the new list of objects, so
the aliasing that one call creates decides what the next call writes. `DuplicateIdsScenario`
shows this. Two objects share an id. The first `increment` writes quantities `[2, 1]` and leaves
the first object at both positions. `AliasedScenario` then shows that the next `increment` writes
`[3, 3]`.

## Model

| member | source | states |
|---|---|---|
| `CartList.Find` | src/hooks/cart.tsx:46 | `Some(k)` is the first position whose id matches; `None` exactly when no entry has that id |
| `CartList.FindDistinct` | src/hooks/cart.tsx:93 | with distinct ids, the match found is the one entry that carries the id |
| `CartList.AddAbsent` | src/hooks/cart.tsx:71-76 | adding an absent id gives the old list plus `{ ...product, quantity: 1 }` at the end; length grows by one |
| `CartList.AddPresent` | src/hooks/cart.tsx:46-59 | adding a present id (ids distinct) raises that entry's quantity by exactly 1 at the same position; every other entry is unchanged |
| `CartList.AddIds` | src/hooks/cart.tsx:46-76 | after `addToCart` the ids are the old ids, or the old ids plus the new one appended once: no duplicate entry is created |
| `CartList.AddKeepsDistinct` | src/hooks/cart.tsx:46-76 | if all ids are distinct before `addToCart`, they are distinct after it |
| `CartList.AddPresentIsIncrement` | src/hooks/cart.tsx:51-59 | on a present id, `addToCart` builds the same list as `increment` |
| `CartList.StepPresent` | src/hooks/cart.tsx:119-131 | on a present id (ids distinct), `increment`/`decrement` moves that entry's quantity by exactly `delta`, also from 0 to -1; order, length and every other entry are unchanged |
| `CartList.StepAbsent` | src/hooks/cart.tsx:121 | `increment`/`decrement` on an absent id leaves the list unchanged |
| `CartList.StepIds` | src/hooks/cart.tsx:122-131 | `increment`/`decrement` never add or remove an entry, whatever the quantity becomes |
| `CartList.StepsCompose` | src/hooks/cart.tsx:90-142 | two steps on one id equal one step by their sum, whatever the ids |
| `CartList.IncrementThenDecrement` | src/hooks/cart.tsx:90-142 | with distinct ids, `decrement` after `increment` of the same id gives back the original list |
| `CartList.ChangedAtIsReplaced` | src/hooks/cart.tsx:52-58 | with distinct ids, changing the found entry in place yields the same list as the `map` rebuild |
| `CartHook.Item.constructor` | src/hooks/cart.tsx:71 | a new item object carries the product's fields and quantity 1 |
| `CartHook.ChangeInPlace` | src/hooks/cart.tsx:52 | after `quantity += delta` on the found object, the captured list shows the change at every position holding that object and nowhere else |
| `CartHook.InPlaceChangeIsNewList` | src/hooks/cart.tsx:52-66 | with distinct ids, the captured list after the in-place change equals the new list |
| `CartHook.ReplacedValues` | src/hooks/cart.tsx:53-59 | the `map` that puts the changed object at every position with its id yields `ReplaceById` of the old values, whatever the ids |
| `CartHook.CartStore.constructor` | src/hooks/cart.tsx:29 | the cart starts empty with nothing written |
| `CartHook.CartStore.AddToCart` | src/hooks/cart.tsx:40-88 | the new object list is the found object at every position with its id, or the old objects plus one fresh item; the new values are `Added` of the old ones; the write is the captured list after the in-place change, or the pre-call list in the new-item branch; with distinct ids it equals the new list when the id was present and the old list otherwise; distinct ids are kept |
| `CartHook.CartStore.Increment` | src/hooks/cart.tsx:90-114 | the new object list puts the found object at every position with its id, or is unchanged; the new values are `Stepped(old, id, 1)`; exactly one write when the id is present and none when it is absent; with distinct ids the write equals the new list |
| `CartHook.CartStore.Decrement` | src/hooks/cart.tsx:116-142 | the new object list puts the found object at every position with its id, or is unchanged; the new values are `Stepped(old, id, -1)`; no lower bound, no removal; one write when present, none when absent; with distinct ids the write equals the new list |
| `CartHook.CartStore.ChangeQuantity` | src/hooks/cart.tsx:93-110 | the body shared by `increment` and `decrement`: the new object list is the `map` over the found object, the new values are `Stepped(old, id, delta)`, and the write is the captured list after the in-place change, or none when the id is absent |
| `CartHook.UseCart` | src/hooks/cart.tsx:152-160 | an error with the source's message exactly when no provider value is present; otherwise the provider's value |

## Left out

- Startup load (src/hooks/cart.tsx:31-38) is not modelled. It is asynchronous I/O, and `JSON.parse(String(null))` yields `null` rather than a list, so it is no list operation. On a first start `products` therefore becomes `null`, and the next `addToCart`, `increment` or `decrement` throws at `products.find` (src/hooks/cart.tsx:34, 46, 93, 119). The empty cart of `CartStore.constructor` holds only until that load resolves. The cart's contracts hold for any starting list, including one with duplicate ids.
- AsyncStorage and JSON encoding are not modelled. A write is an entry appended to the ghost log `writes`. A storage failure is never observed.
- Interleaving between calls is not modelled. Each call runs atomically over the current list. Races between stale closures when calls come in quick succession are concurrency and out of scope.
- React plumbing is not modelled: `createContext`, `useState`, `useCallback`, `useMemo` and the provider JSX. `UseCart` takes the context as an `Option`.
- `price` is a `real` that is carried and never computed on. `quantity` is an unbounded `int`, so JavaScript number rounding beyond 2^53 is not modelled.
- Fields beyond `Omit<Product, 'quantity'>` that a caller might pass at run time are not modelled. The spread would copy them.
