# Cart store and admin navigation guard of Cardapio-Affeto, in Dafny

This project models two pieces of a Vue shop front for a bakery menu.

The first is the Pinia cart store. It holds an ordered list of line items
(`CartItem`). It offers four mutations:

- `add(product, size?)` merges into an existing line or appends a new one.
- `updateQuantity(index, q)` sets a line's quantity, clamped to at least 1.
- `remove(index)` splices one line out.
- `clear()` empties the list.

Each mutation that reaches `persist()` writes the whole list through to the
browser slot `cart`. `updateQuantity` on a missing line returns before that. The derived values are `count`, the sum of the quantities, and
`total`, the sum of the subtotals.

The second is the vue-router `beforeEach` guard. It lets shop pages, the admin
login page `/admin` and the recovery page `/admin/recuperar` through. Every
other path starting with `/admin` is let through only while an authentication
session exists. Without a session the guard redirects to `/admin`.

Layout:

- `wrappers.dfy`: `Option`.
- `types.dfy`: the records `SizeOption`, `Product` and `CartItem`. Only the fields the cart uses are kept.
- `cart_model.dfy` (module `CartModel`): the cart's operations as functions on the item sequence.
  - `Count`, `Total` and the left fold `SumBy` they share.
  - The merge key `MergeKey` and the `find` on it, `FindByKey`.
  - `Added`, `QuantityUpdated` and `Removed`. `Removed` uses `Spliced`, which is ECMAScript's `splice`.
  - The line invariants `WellFormed` and `UniqueKeys`.
- `cart_properties.dfy` (module `CartProperties`): lemmas about those functions.
- `cart_store.dfy` (module `CartStore`): class `Cart`. Its fields are `items` and `stored`. `stored` is the durable slot, `None` while nothing has been written. Each method is proved to leave `items` equal to the matching `CartModel` function of the old items. Each method that writes the slot leaves `stored == Some(items)`. Each mutation keeps the line invariants.
- `router.dfy` (module `Router`): the route table as a constant, the classification predicates, the guard `BeforeEach` and its properties.

Modelling choices:

- Prices and quantities are `int`. Prices are in cents.
- Indices are `int` with JavaScript's meaning:
  - `items[index]` is missing for a negative index or an index past the end, and `updateQuantity` then returns before `persist()`.
  - `splice(index, 1)` counts a negative index from the end. An index below minus the length removes the first line.
- The merge key is the string `${id}-${label || ''}`, exactly as written. The key is therefore not injective. A size labelled `""` shares the no-size key. An id containing `-` can collide with another id plus a label. `KeysCollideAcrossIds`, `EmptyLabelKeyIsNoSizeKey` and `EmptyLabelSizeMergesWithNoSize` state these collisions. `KeyInjectiveForEqualLengthIds` states when the key does tell lines apart.
- A size labelled `""` is merged into the no-size line of the same product, because the key cannot tell them apart.
- An unparsable stored string makes `JSON.parse` throw in the store's initialiser. That path is not modelled: the constructor takes the already parsed snapshot (`None` when the slot is absent).
- The prefix test `startsWith('/admin')` is by characters. `/administrator` is guarded (`PrefixIsNotSegmentAware`).
- The guard is a function of the target path and the authentication client only. No earlier decision feeds into a later one. A missing client (`supabase` null) counts as no session.

## Model

| member | source | states |
|---|---|---|
| CartModel.Count | src/store/cart.ts:11 | `count` is 0 on an empty cart and, when every line holds at least one unit, at least the number of lines |
| CartModel.Total | src/store/cart.ts:6-12 | `total` (`calcTotal`) is 0 on an empty cart and never negative when no subtotal is negative |
| CartModel.SumByBounds | src/store/cart.ts:6-11 | the `reduce` fold from 0 is non-negative over non-negative terms, and at least the length over terms of at least 1 |
| CartModel.SumByConcat | src/store/cart.ts:6-11 | the `reduce` fold of a concatenation is the sum of the folds of its parts |
| CartModel.SumByRemoveAt | src/store/cart.ts:6-11 | dropping line i from the list takes exactly its term out of the fold |
| CartModel.SumByUpdateAt | src/store/cart.ts:6-11 | replacing line i replaces exactly its term in the fold |
| CartModel.UnitPrice | src/store/cart.ts:19 | a new line's unit price is the size's price when a size is given, otherwise `base_price`, otherwise 0 |
| CartModel.FindByKey | src/store/cart.ts:21 | `find` on the merge key returns the first line with that key; it returns nothing exactly when no line has it |
| CartModel.Added | src/store/cart.ts:20-35 | `add` lengthens the list by at most one line, and by exactly one exactly when no line has the added key |
| CartModel.QuantityUpdated | src/store/cart.ts:38-42 | `updateQuantity` keeps the length, every line's merge key and every line's unit price; the updated line is always well formed, whatever it held before |
| CartModel.Spliced | src/store/cart.ts:46 | `splice` never lengthens the list; it only cuts out one contiguous stretch |
| CartModel.Removed | src/store/cart.ts:45-46 | `splice(index, 1)` behaves as follows: an index in range removes that line; an index past the end changes nothing; a negative index down to minus the length removes counting from the end; a lower index removes the first line |
| CartProperties.MergeKeyParts | src/store/cart.ts:20 | the merge key reads back as the product id, a dash, then the label or nothing |
| CartProperties.LineKeyIsAddKey | src/store/cart.ts:20-31 | the key `find` computes from a line (line 21) is the key `add` computed (line 20) for the product and size it pushed the line for, and incrementing a line keeps its key |
| CartProperties.EmptyLabelKeyIsNoSizeKey | src/store/cart.ts:20-21 | a size labelled "" has the same merge key as no size |
| CartProperties.KeysCollideAcrossIds | src/store/cart.ts:20-21 | id `a-b` without a size and id `a` in size `b-` are different ids with the same merge key |
| CartProperties.KeyInjectiveForEqualLengthIds | src/store/cart.ts:20-21 | for ids of equal length, two keys are equal if and only if the ids are equal and the labels-or-empty are equal |
| CartProperties.DifferentLabelsDifferentKeys | src/store/cart.ts:20 | one product in two differently labelled sizes gets two keys |
| CartProperties.AddMergesIntoFirstMatch | src/store/cart.ts:20-24 | when line k is the first with the added key, `add` keeps the length and changes only line k. Its quantity rises by exactly 1 and its subtotal becomes quantity times its own unit price |
| CartProperties.AddAppendsWhenAbsent | src/store/cart.ts:19-34 | when no line has the key, `add` appends one line and keeps the earlier lines in order. The new line has quantity 1 and subtotal equal to its unit price. That price is the size's price, or else `base_price`, or else 0. It also carries the product's id, name and image and the size's label |
| CartProperties.AddTwiceMerges | src/store/cart.ts:20-34 | two adds of the same product and size on a cart without that key give one new line with quantity 2 and subtotal twice the unit price |
| CartProperties.AddDifferentKeysSeparate | src/store/cart.ts:20-34 | adds under two different keys that are absent give two new lines, in order |
| CartProperties.SizesOfOneProductStaySeparate | src/store/cart.ts:20-34 | one product added in two sizes whose labels differ gives two separate lines |
| CartProperties.EmptyLabelSizeMergesWithNoSize | src/store/cart.ts:19-24 | adding the no-size product and then its size labelled "" gives one line of quantity 2 at the no-size unit price. The size's own price is ignored |
| CartProperties.QuantityUpdatedChangesOnlyThatLine | src/store/cart.ts:38-42 | `updateQuantity` with a missing line changes nothing. Otherwise it changes only that line: quantity becomes max(1, q) and subtotal becomes quantity times unit price |
| CartProperties.DropKeepsLineInvariants | src/store/cart.ts:46 | cutting a stretch out of the list keeps every line well formed, and separately keeps the keys unique |
| CartProperties.AddKeepsLineInvariants | src/store/cart.ts:20-34 | `add` keeps `quantity >= 1` and `subtotal == quantity * unitPrice` on every line, and separately keeps the merge keys unique |
| CartProperties.QuantityUpdateKeepsLineInvariants | src/store/cart.ts:38-43 | `updateQuantity` keeps every line well formed, and separately keeps the keys unique |
| CartProperties.RemoveKeepsLineInvariants | src/store/cart.ts:45-47 | `remove` keeps every line well formed, and separately keeps the keys unique, for every index |
| CartProperties.IncrementRaisesCount | src/store/cart.ts:23 | `quantity += 1` on any line raises `count` by exactly 1 |
| CartProperties.IncrementMovesTotal | src/store/cart.ts:23-24 | incrementing a line replaces its subtotal in `total` by one more unit's worth; for a well-formed line `total` rises by that line's unit price |
| CartProperties.AppendMovesCountAndTotal | src/store/cart.ts:26-34 | appending a line raises `count` by its quantity and `total` by its subtotal |
| CartProperties.AddRaisesCount | src/store/cart.ts:18-35 | `add` raises `count` by exactly 1 on every list, well formed or not |
| CartProperties.AddRaisesTotal | src/store/cart.ts:18-35 | `add` raises `total` by the new line's unit price when it appends. When it merges, the line's subtotal is replaced by one more unit's worth, which for a well-formed line is a rise by its own unit price, frozen when it was added |
| CartProperties.QuantityUpdateMovesCountAndTotal | src/store/cart.ts:38-42 | `updateQuantity` on a present line changes `count` and `total` only by that line's change |
| CartProperties.RemoveLowersCountAndTotal | src/store/cart.ts:45-46 | removing line i takes its quantity out of `count` and its subtotal out of `total` |
| CartProperties.SingleLineSums | src/store/cart.ts:6-12 | a one-line cart has `count` equal to the line's quantity and `total` equal to its subtotal |
| CartProperties.WalkthroughRemove | src/store/cart.ts:45-46 | `remove(0)` on a two-line cart leaves only the second line; when that line holds one unit at 25, `count` is 1 and `total` is 25 |
| CartProperties.WalkthroughPlainAdds | src/store/cart.ts:18-36 | two adds of p1 (base price 10) to an empty cart give one line with count 2 and total 20 |
| CartProperties.WalkthroughSizedAdd | src/store/cart.ts:18-36 | then adding p1 in size "10p" at 25 appends a second line, giving count 3 and total 45 |
| CartProperties.Walkthrough | src/store/cart.ts:6-51 | the full sample session ends, after `remove(0)`, with one line, count 1 and total 25 |
| CartStore.Cart.constructor | src/store/cart.ts:9 | the initial items are the stored snapshot, or the empty list when the slot is absent |
| CartStore.Cart.Persist | src/store/cart.ts:15-17 | the slot then holds exactly the current items |
| CartStore.Cart.Add | src/store/cart.ts:18-37 | the items become `Added(old items)`, the slot holds them, each line invariant is kept on its own, and `count` rises by exactly 1 on every cart |
| CartStore.Cart.UpdateQuantity | src/store/cart.ts:38-44 | the items become `QuantityUpdated(old items)`. The slot is written only when the line exists. Each line invariant is kept on its own |
| CartStore.Cart.Remove | src/store/cart.ts:45-48 | the items become `Removed(old items)`, the slot is written even for a missing index, and each line invariant is kept on its own |
| CartStore.Cart.Clear | src/store/cart.ts:49-52 | the items and the slot become empty; `count` and `total` are 0 |
| Router.IsPublicAdminRoute | src/router.ts:38 | the two public administration pages both lie under the `/admin` prefix |
| Router.IsAdminRoute | src/router.ts:39 | a path is guarded exactly when it starts with `/admin` and is neither `/admin` nor `/admin/recuperar`; a guarded path is longer than the prefix |
| Router.SessionOf | src/router.ts:41 | a missing client reports no session; a present client reports exactly its own current session |
| Router.BeforeEach | src/router.ts:37-44 | the guard either proceeds or redirects to `/admin`. It redirects exactly when the path starts with `/admin`, is neither `/admin` nor `/admin/recuperar`, and there is no session |
| Router.PublicAdminPagesProceed | src/router.ts:38-40 | `/admin` and `/admin/recuperar` proceed whatever the session state |
| Router.OutsideAdminIgnoresSession | src/router.ts:39-40 | a path not starting with `/admin` proceeds, and any two session states give the same decision |
| Router.GuardedWithoutSessionRedirects | src/router.ts:39-42 | a guarded path with no session, or with no authentication client at all, is redirected to `/admin` |
| Router.GuardedWithSessionProceeds | src/router.ts:40-44 | a guarded path with a session proceeds unchanged |
| Router.NoRedirectLoop | src/router.ts:38-42 | the redirect target is public, so navigating to it proceeds whatever the session is by then |
| Router.PrefixIsNotSegmentAware | src/router.ts:39 | `/administrator` is classified as a guarded page and is redirected without a session |
| Router.RouteTableClassification | src/router.ts:18-33 | of the 13 routes, the six shop pages, the login page and the recovery page are open. The five other admin pages are guarded. The login path is the `admin-login` route |

## Left out

- `localStorage` and `JSON.stringify`/`JSON.parse`: the slot is a field holding the item sequence itself, so there is no codec and no serialisation round trip to state. An invalid stored string makes the store's initialiser throw. That path is not modelled.
- Pinia's `defineStore` reactivity and getter caching: `count` and `total` are plain functions of the item list.
- In-place mutation of line objects: `add` and `updateQuantity` change a line object that the array holds. The model replaces the element of the sequence instead. No other reference to a line object is modelled.
- JavaScript numbers: prices and quantities are integers. Floating-point rounding, `NaN`, fractional quantities and non-integer indices are not modelled.
- `supabase.auth.getSession()`: the model takes its answer as an input (`AuthClient.currentSession`). The `await` is not modelled. A rejected call, which the code does not catch, is not modelled either, so the model claims nothing about failing closed on errors.
- vue-router wiring and the page components (src/router.ts:1-16, 35): framework plumbing. A stale session check racing a newer navigation is not modelled.
- src/lib/supabase.ts is not part of this model. The client is either present or missing.
- vite.config.ts and tailwind.config.cjs: build and style configuration, with no logic.
- The `Order` and `SettingsKV` types, and the product fields the cart never reads: not used by the cart or the guard.
