# Order editing in the PocketCounter back-office console

The console is a React front end over a REST API. The only logic it has of its
own is the UI-local state of the orders page and of its order-edit modal. This
project models that state in Dafny and proves what the code promises about it.

- **The order-edit draft** (`order_edit.dfy`, module `OrderEdit`). Class
  `EditOrderForm` holds the modal's draft: the pending status, the paid flag,
  and the `add` and `remove` lists of cart lines. It also holds the state of
  the product picker inside the modal: the chosen product and the quantity.
  Each event handler is a method whose frame names only the fields it writes.
  - The add and remove handlers append one line each and never merge lines.
  - The Add button appends only when a product is chosen.
  - A remove box appends any positive value. It does not check the line's
    quantity.
  - `HandleSubmit` yields the calls made by the Save button: `onSave` with the
    whole draft, then `onClose`. `OnCancel` yields the single `onClose` call
    made by the Cancel button and by the modal's own close.
  - The class invariant `Valid()` keeps the pending status inside the
    drop-down's values {0, 1, 2}.
- **The orders page** (`orders_page.dfy`, module `Orders`). Class `OrdersPage`
  has the page's state fields.
  - Its handlers model fetch results, clicks, edit, back, close, the archive
    toggle and the two save handlers.
  - `ViewOf` picks the rendered view from the state by a fixed precedence
    chain.
  - `FilteredOrders` is the archive filter. Lemmas prove that it splits the
    orders into shipped and other orders, and that it keeps their relative
    order.
  - `IsAuthError` is the test that sends the user to the login page.
- `domain.dfy` (module `Domain`) holds the records: `CartLine`, `Product`,
  `Customer`, `Order` and `Option`.

JavaScript truthiness is written out where the code relies on it:
- `if (error)` shows the alert only for a non-empty message.
- `product?.title || fallback` also falls back for an empty title.
- `if (selectedProduct)` means a non-empty product id.

The outside world arrives as parameters:
- A fetch result is an event method: `OnOrdersFetched`, `OnOrdersFailed`, and
  so on.
- A save call's outcome is an `Outcome` value.
- A navigation or a reload is a returned route string.

Some behaviours of the code are easy to misread; the model follows the code:
- Closing the editor clears only `editingOrder`, so the page goes back to the
  selected order's card, not to the list (`OnClose`).
- The page starts with the spinner, not the list, because `loading` starts true.
- A failed orders fetch stores the products error text, as the code does.
- The form calls `onSave` with `{statusUpdate, cartUpdate}` holding
  `add`/`remove` lists. The page passes `onSaveStatus`/`onSaveCartLines`, which
  take other argument shapes. The model keeps both interfaces as written and
  does not connect them.
- The API client rejects every non-OK response of the orders or products fetch
  with a fixed text that has no digits, so an HTTP 401 or 403 never reaches the
  login redirect (`ApiFetchErrorNeverRedirects`).

## Model

| member | source | states |
|---|---|---|
| `OrderEdit.StatusValuesAreZeroToTwo` | pocketcounter.front/src/components/Orders/EditOrderForm.tsx:18-22 | a status is offered by the drop-down if and only if it is 0, 1 or 2 |
| `OrderEdit.FindProduct` | pocketcounter.front/src/components/Orders/EditOrderForm.tsx:182 | finds a product exactly when one has the id, and the one found is the first with that id |
| `OrderEdit.ProductTitle` | pocketcounter.front/src/components/Orders/EditOrderForm.tsx:185 | the row title is never empty; it is the first matching product's title, or 'Неизвестный товар' when no product matches or the match has an empty title |
| `OrderEdit.EditOrderForm.constructor` | pocketcounter.front/src/components/Orders/EditOrderForm.tsx:30-35 | a new draft has status 0 whatever the order's status, the order's paid flag, and empty add and remove lists; the picker starts with no product and quantity 1 (its initial state at EditOrderForm.tsx:128-129); the invariant holds |
| `OrderEdit.EditOrderForm.OnStatusChange` | pocketcounter.front/src/components/Orders/EditOrderForm.tsx:77-86 | choosing an entry stores that entry's value and changes nothing else, so the pending status stays one of the offered values |
| `OrderEdit.EditOrderForm.OnPaidChange` | pocketcounter.front/src/components/Orders/EditOrderForm.tsx:90-95 | the check box replaces only the paid flag |
| `OrderEdit.EditOrderForm.HandleAddProduct` | pocketcounter.front/src/components/Orders/EditOrderForm.tsx:37-42 | `add` gains exactly one line at its end, with earlier lines kept in order and no merging; `remove`, status and paid flag are unchanged |
| `OrderEdit.EditOrderForm.HandleRemoveProduct` | pocketcounter.front/src/components/Orders/EditOrderForm.tsx:44-49 | `remove` gains exactly one line at its end, with earlier lines kept in order and no merging; `add`, status and paid flag are unchanged |
| `OrderEdit.EditOrderForm.OnSelectProduct` | pocketcounter.front/src/components/Orders/EditOrderForm.tsx:136-146 | the product drop-down replaces only the chosen product |
| `OrderEdit.EditOrderForm.OnQuantityChange` | pocketcounter.front/src/components/Orders/EditOrderForm.tsx:148-154 | the quantity box replaces only the quantity |
| `OrderEdit.EditOrderForm.OnAddClick` | pocketcounter.front/src/components/Orders/EditOrderForm.tsx:156-163 | with a product chosen, one line of that product and the current quantity is appended and the choice is cleared while the quantity stays; with none chosen, nothing changes |
| `OrderEdit.EditOrderForm.OnRemoveQuantityChange` | pocketcounter.front/src/components/Orders/EditOrderForm.tsx:188-198 | a positive value is appended for the row's product even above the row's quantity; zero or below changes nothing |
| `OrderEdit.EditOrderForm.HandleSubmit` | pocketcounter.front/src/components/Orders/EditOrderForm.tsx:51-64 | Save calls `onSave` with the pending status and paid flag and the accumulated add and remove lists, then `onClose`; under the invariant the submitted status is 0, 1 or 2 |
| `OrderEdit.EditOrderForm.OnCancel` | pocketcounter.front/src/components/Orders/EditOrderForm.tsx:67-111 | the Cancel button and the modal's `onHide` call only `onClose`, never `onSave`, so the draft is dropped; this is Save's closing call without the save before it |
| `OrderEdit.EditOrderForm.CartRowTitles` | pocketcounter.front/src/components/Orders/EditOrderForm.tsx:181-185 | the cart table has one row per order line, in order; each title is `ProductTitle` of the line's product id over the form's products: the first matching product's title, or 'Неизвестный товар' when no product matches or that title is empty; it is never empty |
| `Orders.FilteredOrders` | pocketcounter.front/src/pages/OrdersPage.tsx:99-101 | every listed order matches the flag (shipped when the archive is shown, not shipped otherwise), and a page order is listed exactly when it matches |
| `Orders.FilterPartition` | pocketcounter.front/src/pages/OrdersPage.tsx:99-101 | the archive and the active list together hold every order exactly as often as the page does; their lengths sum to the number of orders |
| `Orders.FilterKeepsOrder` | pocketcounter.front/src/pages/OrdersPage.tsx:99-101 | the filtered list is the page's list at an increasing sequence of positions, and a position is among them exactly when its order matches the flag |
| `Orders.FilterExample` | pocketcounter.front/src/pages/OrdersPage.tsx:99-101 | of orders with statuses New, Shipped, ReadyToShip, the active list is the first and third and the archive is the second |
| `Orders.Contains` | pocketcounter.front/src/pages/OrdersPage.tsx:41 | `includes` holds exactly when the text occurs at some position |
| `Orders.IsAuthError` | pocketcounter.front/src/pages/OrdersPage.tsx:41 | the redirect test holds exactly when "401" or "403" occurs somewhere in the message |
| `Orders.NoFourNoRedirect` | pocketcounter.front/src/pages/OrdersPage.tsx:53 | a message without the digit 4 never triggers the redirect |
| `Orders.ApiFetchErrorNeverRedirects` | pocketcounter.front/src/api.ts:210 | the fixed text thrown on a non-OK orders or products response (also api.ts:35) never triggers the redirect |
| `Orders.ViewOf` | pocketcounter.front/src/pages/OrdersPage.tsx:103-142 | precedence: spinner exactly while loading; else the alert exactly when a non-empty error is stored; else, while an order is being edited, the editor with a selection or an empty customer list and the null-access render error otherwise; else the card exactly when one is selected; else the filtered list; each view carries the state it shows, and states meeting the page invariant never give the render error |
| `Orders.OrEmpty` | pocketcounter.front/src/pages/OrdersPage.tsx:90-91 | a null list becomes the empty list, and a present list, even an empty one, passes unchanged |
| `Orders.SaveErrorText` | pocketcounter.front/src/pages/OrdersPage.tsx:80 | an `Error`'s own message is stored; any other thrown value stores 'Ошибка сохранения' |
| `Orders.OrdersPage.constructor` | pocketcounter.front/src/pages/OrdersPage.tsx:17-25 | the page starts loading, with no error, nothing selected or edited, the archive hidden, empty lists, and the spinner as its view |
| `Orders.OrdersPage.OnCustomersFetched` | pocketcounter.front/src/pages/OrdersPage.tsx:27-34 | a missing customer list stores the customers error text; a list replaces the customers and writes nothing else |
| `Orders.OrdersPage.OnCustomersFailed` | pocketcounter.front/src/pages/OrdersPage.tsx:33 | any customers fetch failure stores the customers error text and does not end loading |
| `Orders.OrdersPage.OnOrdersFetched` | pocketcounter.front/src/pages/OrdersPage.tsx:36-46 | the fetched items replace the orders and loading ends |
| `Orders.OrdersPage.OnOrdersFailed` | pocketcounter.front/src/pages/OrdersPage.tsx:39-45 | a failure always stores the error and ends loading, so the alert is shown; the login route is requested exactly when the message has 401 or 403 |
| `Orders.OrdersPage.OnProductsFetched` | pocketcounter.front/src/pages/OrdersPage.tsx:48-58 | the fetched items replace the products and loading ends |
| `Orders.OrdersPage.OnProductsFailed` | pocketcounter.front/src/pages/OrdersPage.tsx:51-57 | as for orders: error stored, loading ended, alert shown, login requested exactly for a 401/403 message |
| `Orders.OrdersPage.HandleOrderClick` | pocketcounter.front/src/pages/OrdersPage.tsx:60-62 | only the selection changes, to the clicked order; from the list the view becomes that order's card |
| `Orders.OrdersPage.HandleEdit` | pocketcounter.front/src/pages/OrdersPage.tsx:64-66 | only the edited order changes and the selection is kept; the page keeps `Valid()` exactly when an order is selected; with one selected and neither the spinner nor an error shown, the editor for that order is shown; with none selected, the editor over an empty customer list and the null-access render error otherwise |
| `Orders.OrdersPage.OnBack` | pocketcounter.front/src/pages/OrdersPage.tsx:135 | only the selection is cleared; from the card the view becomes the filtered list |
| `Orders.OrdersPage.OnClose` | pocketcounter.front/src/pages/OrdersPage.tsx:121 | only the edited order is cleared; from the editor the view returns to the selected order's card, not to the list |
| `Orders.OrdersPage.ToggleArchived` | pocketcounter.front/src/pages/OrdersPage.tsx:147-152 | only the archive flag changes, to its negation, so two toggles restore the state |
| `Orders.OrdersPage.HandleSaveStatus` | pocketcounter.front/src/pages/OrdersPage.tsx:72-82 | the request targets the selected order's customer and id, not the edited order; success reloads `/orders`; failure stores the thrown message; with no selection no request is sent and the null-access message is stored |
| `Orders.OrdersPage.HandleSaveCartLines` | pocketcounter.front/src/pages/OrdersPage.tsx:84-97 | as for the status save, with null add or remove lists sent as empty lists and present lists sent unchanged |

## Left out

- The HTTP calls, the bearer token read from `localStorage`, and JSON encoding. These are browser I/O. A fetch result or a request outcome enters as a parameter instead.
- The order in which the three fetches finish. Each completion is a separate event method, and any interleaving is a sequence of calls to them. A view rendered between those calls is not modelled.
- `navigate(...)` and the `window.location.href` reload. These are browser side effects, so the model returns them as route strings and nothing more.
- `handleDelete`. It only shows a browser `alert` and changes no state.
- Two more actions only navigate: the list's "Добавить" button (`/order/new`) and the alert's retry button (`/login`).
- JSX rendering, react-bootstrap and `Number(e.target.value)`. Inputs arrive as typed integers. The status drop-down's change is modelled by the index of the chosen entry.
- The customer lookups at OrdersPage.tsx:115 and 129 only produce a prop for rendering, so they are left out.
- What React does after a render throws (unmounting, error boundaries). `ViewOf` gives such a render as the `RenderError` view: an edited order with no selected one throws inside the `customers.find` callback at OrdersPage.tsx:115 when the customer list is non-empty. `OrdersPage.Valid()` excludes that state. `handleEdit` is reachable only from the selected order's card (:136), and the selection is cleared only from that card (:135). The handlers keep `Valid()`, and `HandleEdit` and `OnBack` state exactly when.
- Orders.OrdersPage.HandleSaveStatus: the message stored when there is no selected order is the V8 engine's text for reading a property of null. Other engines word it differently.
- Orders.OrdersPage.HandleSaveCartLines: stores the same V8 text when there is no selected order.
- The API client (`api.ts`) and the route table (`Router.tsx`) are not part of this model. Only the fixed text it throws on a non-OK orders or products response is used, as `ApiFetchError` in `ApiFetchErrorNeverRedirects`.
