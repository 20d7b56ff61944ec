# Restaurant ordering front end: the client-side state layer in Dafny

This project models the state layer of a restaurant-ordering web front end:

- the **cart store** (`useCartStore`): an ordered list of cart entries, at most one per menu item, each with a positive quantity; `addItem`, `removeItem`, `updateQuantity` and `clearCart` rebuild the list, and `getTotalItems`, `getTotalPrice` and `getItemQuantity` fold over it;
- the **menu store** (`useMenuStore`): a local mirror of the service's menu with `isLoading` and `error` flags, updated by `fetchMenuItems`, `createMenuItem`, `updateMenuItem` and `deleteMenuItem`;
- the **admin orders page**: the status flow ordered → preparing → ready → delivered behind the "Mark as …" button (delivered and cancelled are terminal), and the page's `orders`/`isLoading` state under fetch, status change and delete;
- the **cart page**: placing an order (check the delivery details, post one line per cart entry, clear the cart only after the post succeeded) and the per-entry "−", "+" and remove buttons.

Each awaited service call is one atomic step whose reply is a parameter, `Reply<T> = Ok(data) | Err(HttpError(message))`. Where the source sets `isLoading` before it awaits, that first step is a method of its own (`MenuStore.MenuStore.BeginRequest`, `CartPage.CartPage.BeginPlaceOrder`). Then the state in flight can be stated too. Prices are whole cents (`int`). Quantities are unbounded integers.

The stores' list rebuilds are written once, in module `Seqs`: an id-keyed `map` that rewrites the matching elements (`MapMatching`) and `filter` (`Filter`, `RemoveKey`). The cart, menu and order lists all use them. State that the source changes in place is a class with `seq` fields: `CartStore.Cart`, `MenuStore.MenuStore`, `AdminOrders.AdminOrdersPage`, `CartPage.CartPage`. Their methods are specified against the pure functions (`Added`, `Removed`, `QuantityUpdated`, `Replaced`, `Deleted`, `WithoutOrder`, `PayloadLines`). What the source promises is proved about those functions as lemmas.

Notes on the source as written:

- `updateQuantity` keeps only entries with a positive quantity, and it checks every entry, not only the updated one. The model does the same. Under the cart invariant this drops at most the updated entry (`CartStore.UpdateNonPositive`).
- `addItem` for an item already in the cart keeps the cached entry, price included. So the price a second add contributes is the price at the time of the first add (`CartStore.UnitPrice`, `CartStore.AddEffect`).
- The cart page reads the customer as `user?._id`, but the declared `User` type names its identifier `id` and has no `_id`. The model keeps both: `User.id` is the declared field, and `User.serviceId` is the optional `_id`. The posted customer is `_id` as written (`CartPage.CustomerId`). So a signed-in user object without `_id` posts no customer field, because `undefined` is dropped when the body is serialised.
- `updateMenuItem` for an id with no local item changes nothing. It does not insert the returned item (`MenuStore.ReplaceEffect`).

## Model

| member | source | states |
|---|---|---|
| `ShopTypes.ErrorText` | src/stores/menuStore.ts:26 | `message \|\| fallback`: the server message when it is non-empty, otherwise the fallback; never empty when the fallback is not |
| `Seqs.MapMatching` | src/stores/cartStore.ts:29-33 | the id-keyed `map` gives one element out for each element in |
| `Seqs.MapMatchingAt` | src/stores/cartStore.ts:29-33 | the id-keyed `map` rewrites exactly the elements whose key is the id, each by the given update, in place, and leaves every other element as it was |
| `Seqs.Filter` | src/stores/cartStore.ts:45 | `filter` never lengthens the list |
| `Seqs.RemoveKeyMembers` | src/stores/cartStore.ts:45 | after dropping an id, an element survives exactly when it was there with another key; with no element keyed by the id the list is unchanged |
| `Seqs.RemoveKeyAt` | src/stores/cartStore.ts:45 | when one position holds the only element with the id, dropping the id cuts out just that position, in order |
| `CartStore.Find` | src/stores/cartStore.ts:23-25 | `find` returns nothing exactly when no entry has the id, and otherwise an entry of the cart with that id |
| `CartStore.FindFirst` | src/stores/cartStore.ts:23-25 | `find` returns the first entry with the id, whatever entries follow it |
| `CartStore.FindUnique` | src/stores/cartStore.ts:77 | under one-entry-per-id, `find` returns the one entry with the id |
| `CartStore.ItemQuantity` | src/stores/cartStore.ts:76-79 | 0 when no entry has the id, else the quantity of an entry with that id; with positive quantities it is positive exactly for ids in the cart |
| `CartStore.TotalItems` | src/stores/cartStore.ts:65-67 | the left fold of quantities; at least one per entry while quantities are positive |
| `CartStore.TotalPrice` | src/stores/cartStore.ts:69-74 | the left fold of cached price × quantity; never negative while prices are not |
| `CartStore.TotalsConcat` | src/stores/cartStore.ts:65-74 | both totals add up over concatenated carts |
| `CartStore.Added` | src/stores/cartStore.ts:21-41 | `addItem` keeps the length when the id is in the cart and grows it by one otherwise |
| `CartStore.Removed` | src/stores/cartStore.ts:43-47 | `removeItem` never lengthens the cart and leaves no entry with the id |
| `CartStore.QuantityUpdated` | src/stores/cartStore.ts:49-59 | `updateQuantity` never lengthens the cart and leaves only entries with positive quantities |
| `CartStore.AddExisting` | src/stores/cartStore.ts:27-35 | adding an item already in the cart raises exactly that entry's quantity by 1; length and every other entry stay the same |
| `CartStore.AddNew` | src/stores/cartStore.ts:37-39 | adding an item not in the cart appends `{menuItem, quantity: 1}` after the existing entries |
| `CartStore.RemovePresent` | src/stores/cartStore.ts:43-47 | removing an id in the cart cuts out exactly that entry and keeps the others in order |
| `CartStore.RemoveAbsent` | src/stores/cartStore.ts:43-47 | removing an absent id is a no-op |
| `CartStore.RemoveLeavesNone` | src/stores/cartStore.ts:43-47 | after removal no entry has the id, and its quantity reads 0 |
| `CartStore.UpdatePositive` | src/stores/cartStore.ts:49-59 | a positive quantity for an id in the cart overwrites that entry's quantity in place; length and other entries unchanged |
| `CartStore.UpdateNonPositive` | src/stores/cartStore.ts:49-59 | a quantity ≤ 0 for an id in the cart removes that entry, exactly as `removeItem` would |
| `CartStore.UpdateAbsent` | src/stores/cartStore.ts:49-59 | updating an id not in the cart changes nothing |
| `CartStore.AddKeepsWellFormed` | src/stores/cartStore.ts:21-41 | `addItem` keeps one entry per id and every quantity positive |
| `CartStore.RemoveKeepsWellFormed` | src/stores/cartStore.ts:43-47 | `removeItem` keeps one entry per id and every quantity positive |
| `CartStore.UpdateKeepsWellFormed` | src/stores/cartStore.ts:49-59 | `updateQuantity` keeps one entry per id and every quantity positive |
| `CartStore.AddEffect` | src/stores/cartStore.ts:21-41 | after `addItem(m)`: m's quantity and the item count are up by 1, the price is up by the entry's cached unit price, and every other id finds the same entry |
| `CartStore.AddTimesEffect` | src/stores/cartStore.ts:21-41 | n calls of `addItem(m)` raise m's quantity by exactly n and keep one entry per id; for n > 0 m is in the cart, so in exactly one entry (from a cart without m, `getItemQuantity` reads n) |
| `CartStore.RemoveEffect` | src/stores/cartStore.ts:43-47 | after `removeItem(id)`: its quantity reads 0, the totals lose exactly that entry's quantity and line price, and every other id finds the same entry |
| `CartStore.UpdateEffect` | src/stores/cartStore.ts:49-59 | after `updateQuantity(id, q)`: the id reads q if it was present and q > 0, else 0; the totals move by exactly that entry's change; every other id finds the same entry |
| `CartStore.TwoOfOneAndOneOfAnother` | src/stores/cartStore.ts:65-74 | adding A at 10.00 twice and B at 5.50 once gives 3 items and 25.50 |
| `CartStore.Cart.constructor` | src/stores/cartStore.ts:19 | the store starts with an empty, well-formed cart |
| `CartStore.Cart.AddItem` | src/stores/cartStore.ts:21-41 | the new list is `Added(old list, m)`, the invariant holds, m's quantity and the item count rise by 1, the price by the cached unit price |
| `CartStore.Cart.RemoveItem` | src/stores/cartStore.ts:43-47 | the new list is `Removed(old list, id)`, the invariant holds, the id reads 0, the item count falls by its old quantity |
| `CartStore.Cart.UpdateQuantity` | src/stores/cartStore.ts:49-59 | the new list is `QuantityUpdated(old list, id, q)`, the invariant holds, the id reads q or 0, the item count moves by the difference |
| `CartStore.Cart.ClearCart` | src/stores/cartStore.ts:61-63 | the cart is empty, and both totals are 0 |
| `CartStore.Cart.GetTotalItems` | src/stores/cartStore.ts:65-67 | at least one per entry, so 0 exactly when the cart is empty |
| `CartStore.Cart.GetTotalPrice` | src/stores/cartStore.ts:69-74 | never negative while no cached price is |
| `CartStore.Cart.GetItemQuantity` | src/stores/cartStore.ts:76-79 | positive exactly for ids in the cart, 0 for the others |
| `MenuStore.Replaced` | src/stores/menuStore.ts:49-51 | the update `map` keeps the length, and each element is either the old one or the server's copy |
| `MenuStore.Deleted` | src/stores/menuStore.ts:65 | the delete `filter` never lengthens the list and leaves no item with the id |
| `MenuStore.ReplaceEffect` | src/stores/menuStore.ts:47-53 | items with the id become the server's copy, the others stay in place, and with no such item the list is unchanged |
| `MenuStore.DeleteEffect` | src/stores/menuStore.ts:63-67 | exactly the items with other ids survive, in their original order; with no such item the list is unchanged |
| `MenuStore.MenuStore.constructor` | src/stores/menuStore.ts:16-18 | the mirror starts empty, not loading, with no error |
| `MenuStore.MenuStore.BeginRequest` | src/stores/menuStore.ts:21 | before it awaits, an operation sets `isLoading`, clears `error` and keeps the list |
| `MenuStore.MenuStore.FetchMenuItems` | src/stores/menuStore.ts:20-28 | a reply replaces the list; a failure keeps it and records the message or "Failed to fetch menu", without re-raising; loading ends either way |
| `MenuStore.MenuStore.CreateMenuItem` | src/stores/menuStore.ts:30-42 | a reply is appended (length + 1, prefix unchanged, last is the reply); a failure keeps the list, records the message and re-raises; loading ends |
| `MenuStore.MenuStore.UpdateMenuItem` | src/stores/menuStore.ts:44-58 | a reply replaces the items with the id; a failure keeps the list, records the message and re-raises; loading ends |
| `MenuStore.MenuStore.DeleteMenuItem` | src/stores/menuStore.ts:60-72 | a success drops the items with the id; a failure keeps the list, records the message and re-raises; loading ends |
| `AdminOrders.NextStatus` | src/pages/AdminOrders.tsx:65-74 | no next status exactly for delivered and cancelled; never leads to cancelled; each step is one step nearer the end |
| `AdminOrders.Advance` | src/pages/AdminOrders.tsx:65-74 | following the flow for one or more steps never arrives at cancelled |
| `AdminOrders.AdvanceSteps` | src/pages/AdminOrders.tsx:65-74 | n steps of the flow exist exactly when n is at most the steps left, and land n steps nearer the end |
| `AdminOrders.NoCycle` | src/pages/AdminOrders.tsx:66-72 | no status comes back after one or more steps |
| `AdminOrders.FlowEnds` | src/pages/AdminOrders.tsx:66-72 | from any status the flow stops after at most three steps, at a status with no next one |
| `AdminOrders.MarkAsRequest` | src/pages/AdminOrders.tsx:169-176 | the button is offered exactly for statuses other than delivered and cancelled; it requests the next status for that order, never the current one and never cancelled |
| `AdminOrders.EveryStatusOffered` | src/pages/AdminOrders.tsx:153-166 | the status drop-down offers all five statuses, so `SelectStatus` accepts any of them |
| `AdminOrders.WithoutOrder` | src/pages/AdminOrders.tsx:47 | the delete `filter` never lengthens the list and leaves no order with the id |
| `AdminOrders.WithoutOrderEffect` | src/pages/AdminOrders.tsx:47 | exactly the orders with other ids survive; with none matching the list is unchanged; a single match is cut out in place |
| `AdminOrders.AdminOrdersPage.constructor` | src/pages/AdminOrders.tsx:13-14 | the page starts with no orders and loading |
| `AdminOrders.AdminOrdersPage.FetchOrders` | src/pages/AdminOrders.tsx:20-30 | a reply replaces the orders; a failure keeps them and alerts "Failed to load orders"; loading ends either way |
| `AdminOrders.AdminOrdersPage.UpdateOrderStatus` | src/pages/AdminOrders.tsx:32-40 | sends whatever status it is given; success refetches, failure keeps the orders and alerts |
| `AdminOrders.AdminOrdersPage.SelectStatus` | src/pages/AdminOrders.tsx:153-166 | picking a status in the drop-down sends exactly that status for that order, with no check against the flow; success refetches, failure keeps the orders and alerts |
| `AdminOrders.AdminOrdersPage.MarkAs` | src/pages/AdminOrders.tsx:169-176 | the "Mark as" click sends exactly the order's next status |
| `AdminOrders.AdminOrdersPage.HandleDeleteOrder` | src/pages/AdminOrders.tsx:42-52 | nothing is sent unless confirmed; a success drops the orders with the id; a failure keeps the list and alerts |
| `CartPage.PayloadLines` | src/pages/Cart.tsx:34-37 | one line per cart entry, same order, carrying the entry's menu-item id and quantity |
| `CartPage.PayloadMatchesCart` | src/pages/Cart.tsx:34-37 | the posted lines ask for exactly the cart's item count, name each menu item once, and ask for at least one of each |
| `CartPage.CustomerId` | src/pages/Cart.tsx:33 | `user?._id`: no customer when nobody is signed in; otherwise the user object's `_id`, which is absent when the object carries only the declared `id` |
| `CartPage.CartPage.constructor` | src/pages/Cart.tsx:16-22 | the page starts not loading, with empty address and phone, over a well-formed cart |
| `CartPage.CartPage.BeginPlaceOrder` | src/pages/Cart.tsx:24-40 | with an empty address or phone only an alert, no request and no loading; otherwise loading is on and the body is built from the cart, the user, the address and the phone, with the cart untouched |
| `CartPage.CartPage.FinishPlaceOrder` | src/pages/Cart.tsx:42-50 | a successful post clears the cart; a failed one leaves it and shows the error; loading ends either way |
| `CartPage.CartPage.HandlePlaceOrder` | src/pages/Cart.tsx:24-51 | a body is sent exactly when both details are present; it is built from the cart before any change; the cart is emptied only by a successful post |
| `CartPage.CartPage.Decrement` | src/pages/Cart.tsx:96 | "−" on an entry of quantity 1 removes it; otherwise its quantity drops by exactly 1 in place |
| `CartPage.CartPage.Increment` | src/pages/Cart.tsx:108 | "+" raises the entry's quantity by exactly 1 in place |
| `CartPage.CartPage.Remove` | src/pages/Cart.tsx:116 | the remove button drops just that entry, keeping the others in order |

## Left out

- Persistence of the cart (`persist` with key `cart-storage`): the serialisation and storage belong to a library and to browser storage, so the reload round trip is not modelled.
- The authentication store, the HTTP client and its interceptors (token header, logout and redirect on 401): these are I/O and global navigation. The signed-in user is an input of the cart page.
- Rendering, formatting (`formatCurrency`, `formatDate`, status colours and icons), `navigate('/orders')` after an order is placed, `console` logging, and the `confirm` dialog. The dialog's answer is the `confirmed` parameter.
- The bodies of the create and update requests (`createMenuItem(data)`, `updateMenuItem(id, data)`): they go only to the service, and the local list changes only by the reply. The methods therefore take only the reply.
- Concurrency: two requests in flight, and whichever reply lands last wins. Each operation is one atomic step, so the order in which replies arrive is not modelled.
- `updateOrderStatus` starts `fetchOrders()` without awaiting it. The model runs that refetch inside the same step.
- CartStore.TotalPrice: works in whole cents, so the floating-point rounding of JavaScript `number` prices is not modelled.
- CartStore.Cart.AddItem: quantities are unbounded integers; the loss of precision of JavaScript numbers above 2^53 is not modelled.
- CartPage.CartPage.FinishPlaceOrder: a failed post shows the caught error (`Shown`). The fallback text "Failed to place order" can never appear, because a caught error is always truthy, so it is not modelled.
- The menu page and the admin menu page call the menu-store and cart-store operations modelled here. Their own handlers and rendering are not part of this model.
- The customer orders page (`src/pages/Orders.tsx`) has its own fetch. It calls the service directly and keeps its own `orders` and `isLoading`, shaped like the admin page's `fetchOrders`. It is not part of this model.
