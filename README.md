# Padaria Vovó Guta ordering front end — Dafny model

This project models the logic of a bakery's ordering web app. Customers
order from a digital menu on their phone or at a table. The kitchen works
from an orders board. A TV screen shows which orders are being prepared
and which are ready. Admin pages manage the catalogue, the store
settings and the waitstaff permissions. All data lives in a hosted
database and reaches every open page through realtime change events.

The model covers the part of the app that computes things:

- the cart (merge by product, whole-line removal, total, badge count);
- the checkout's validation and the order it builds;
- the three-step checkout dialog;
- the realtime reducers that fold INSERT/UPDATE/DELETE events into the
  orders and products lists;
- `addOrder`'s insert with its one reduced-record retry;
- the status update request;
- the kitchen's occupied tables and status buttons;
- the manual order dialog;
- the TV board's columns and labels;
- the dashboard figures;
- product normalisation on save and the category list;
- the single-field settings updates.

Modelling choices:

- Money (prices, totals, the change amount) is integer cents.
- Optional fields are `Option` values, and a JavaScript truthy string is
  `Filled`.
- Ids, timestamps, the weekday and every answer the database gives are
  parameters.
- Page state that the source changes in place is a class:
  `DigitalMenu.MenuSession`, `OrdersList.ManualOrderPanel`,
  `MenuManagement.CategoryEditor` and `MenuManagement.ProductEditor`. Their
  methods are specified against the pure functions beside them.

One module per source file:

| file | module |
|---|---|
| `seqs.dfy` | `Seqs` (array `filter`, `slice` and id-keyed `map`/`filter`) |
| `text.dfy` | `Text` (the string functions the pages call) |
| `types.dfy` | `Types` (types.ts, constants.ts) |
| `cart.dfy` | `Cart` |
| `app.dfy` | `App` (App.tsx) |
| `digital_menu.dfy` | `DigitalMenu` |
| `orders_list.dfy` | `OrdersList` |
| `menu_management.dfy` | `MenuManagement` |
| `tv_board.dfy` | `TVBoard` |
| `dashboard.dfy` | `Dashboard` (AdminDashboard) |
| `store_settings_page.dfy` | `StoreSettingsPage` |
| `waitstaff_management.dfy` | `WaitstaffManagement` |

Behaviour of the code that the model keeps as written:

- Cancelled orders still mark their table occupied.
- The cancel button is offered on delivered and cancelled orders too.
- No status transition is checked anywhere.
- Nothing groups orders by table or removes items from a placed order.

## Model

| member | source | states |
|---|---|---|
| Types.With | pages/StoreSettingsPage.tsx:14 | the spread copy puts the value under the key and leaves every other key as it was |
| Types.SettingsExtensionality | types.ts:34-46 | two settings records that agree on all ten keys are equal |
| Types.InitialSettingsShape | constants.ts:11-22 | the initial settings are well typed under every key, with all three channels on, both waitstaff permissions off and 80 mm paper |
| Seqs.Filter | pages/MenuManagement.tsx:23 | `filter` keeps, in their order, as many elements as satisfy the test, repeats included, each one satisfying it and every satisfying element appearing |
| Seqs.FilterIsOnlyChoice | pages/OrdersList.tsx:63 | those properties determine the filtered list: any subsequence of satisfying elements of that length is it |
| Text.Trim | pages/MenuManagement.tsx:68-73 | `trim()` cuts only white space, from both ends: the result is a slice of the input with only white space before and after it, empty exactly for a blank input, and otherwise starting and ending with a non-space character |
| Text.EmptySearchMatchesAll | pages/MenuManagement.tsx:23 | an empty search term matches every name |
| Text.SearchIgnoresTermCase | pages/OrdersList.tsx:63 | a term and its lower-cased form select the same names |
| Cart.Bump | pages/DigitalMenu.tsx:43 | the lines for the product gain one unit with name and price kept; length and every other line are unchanged |
| Cart.NewLine | pages/DigitalMenu.tsx:45 | a new line has one unit and the product's id, name and price at that moment |
| Cart.AddLine | pages/OrdersList.tsx:51-57 | an existing product's line gains one unit with length and other lines unchanged; a new product is appended as one unit; the product then has a line; unique lines and positive quantities are preserved |
| Cart.AddToCart | pages/DigitalMenu.tsx:38-47 | an inactive product leaves the cart unchanged; an active one is added with the merge-or-append rule |
| Cart.RemoveLine | pages/DigitalMenu.tsx:49-51 | the whole line goes; every other line stays and nothing else is added; a missing product changes nothing; unique lines and positive quantities are preserved |
| Cart.RemoveLineConcat | pages/OrdersList.tsx:59-61 | removal distributes over concatenation, so the lines that stay keep their relative order |
| Cart.Total | pages/DigitalMenu.tsx:53 | an empty cart totals 0; a one-line cart totals that line's price times its quantity |
| Cart.ItemCount | pages/DigitalMenu.tsx:108 | an empty cart counts 0; a one-line cart counts that line's quantity |
| Cart.SumsConcat | pages/DigitalMenu.tsx:53 | the total and the badge count split over a concatenation of carts |
| Cart.BadgeCountsLines | pages/DigitalMenu.tsx:106-108 | with positive quantities the badge is at least the number of lines, and positive exactly when the cart has a line |
| Cart.BumpAbsent | pages/DigitalMenu.tsx:43 | bumping a product with no line changes nothing |
| Cart.AddLineToExistingSums | pages/DigitalMenu.tsx:41-44 | adding a product that already has a line adds one unit to the badge and that line's stored price to the total |
| Cart.AddLineNewSums | pages/DigitalMenu.tsx:45 | adding a new product adds one unit and its current price |
| Cart.RemoveLineSums | pages/DigitalMenu.tsx:49-53 | removing a product takes away exactly its line's units and price × quantity |
| Cart.RemoveAfterAdd | pages/DigitalMenu.tsx:38-51 | adding a product then removing it equals removing it alone |
| Cart.BumpThenRemove | pages/DigitalMenu.tsx:43-50 | bumping a product then removing it equals removing it alone |
| App.InsertOrder | App.tsx:68-73 | an INSERT for a listed id leaves the list unchanged; otherwise the order is prepended; unique ids stay unique |
| App.UpdateOrder | App.tsx:75-76 | each order with the row's id is replaced in place; length and ids are kept; an unknown id changes nothing; unique ids stay unique |
| App.DeleteOrder | App.tsx:77-78 | every order with the old id goes; the others stay, in their order (a subsequence of the list), each as often as before; a missing id changes nothing; unique ids stay unique |
| App.DeleteOrderConcat | App.tsx:77-78 | deletion distributes over concatenation, so the orders that stay keep their relative order |
| App.ApplyOrderChange | App.tsx:67-80 | the orders handler keeps ids unique and keeps the length on UPDATE |
| App.OrderEventsKeepIdsUnique | App.tsx:67-80 | any sequence of order events keeps unique ids unique |
| App.InsertEchoIdempotent | App.tsx:69-72 | a repeated INSERT event changes nothing more |
| App.InsertProduct | App.tsx:86-87 | a product INSERT appends at the end, growing the list by one |
| App.ProductInsertCanDuplicate | App.tsx:86-87 | an INSERT for a listed product id leaves two products with that id |
| App.UpdateProduct | App.tsx:88-89 | each product with the row's id is replaced in place; an unknown id changes nothing |
| App.DeleteProduct | App.tsx:90-91 | every product with the old id goes and the others stay, in their order (a subsequence of the list), each as often as before, duplicates included |
| App.ApplyProductChange | App.tsx:85-92 | INSERT grows the list by one, UPDATE keeps its length, DELETE never grows it |
| App.Basic | App.tsx:120-128 | the reduced record copies exactly id, items, total, status, createdAt, type and tableNumber |
| App.BasicDropsOptionalFields | App.tsx:120-128 | the row stored from the reduced record equals the order iff it had no customer name, payment, address, notes or change |
| App.AddOrder | App.tsx:112-133 | the full record is always sent first; the reduced record is sent second iff the first insert failed; it throws iff both fail, with the second error |
| App.UpdateOrderStatus | App.tsx:135-138 | one request carries the id and only the new status; the store's error is rethrown |
| App.ApplyStatusUpdate | App.tsx:136 | rows with the id get the new status and keep every other field; other rows are unchanged |
| App.NoTransitionCheck | App.tsx:135-138 | a delivered order can be sent back to PREPARANDO |
| DigitalMenu.FeaturedProduct | pages/DigitalMenu.tsx:36 | none iff no active product is featured today; otherwise the first such product |
| DigitalMenu.CategoryTabs | pages/DigitalMenu.tsx:33 | 'Todos' followed by the categories |
| DigitalMenu.VisibleProducts | pages/DigitalMenu.tsx:34 | 'Todos' shows every product; any other tab shows exactly the products of that category, in catalogue order and as many times as the catalogue holds them |
| DigitalMenu.Advance | pages/DigitalMenu.tsx:244-245 | Continue moves exactly one step forward: cart to details, details to payment |
| DigitalMenu.Previous | pages/DigitalMenu.tsx:239 | Back moves exactly one step back: payment to details, details to cart |
| DigitalMenu.StepsAreInverse | pages/DigitalMenu.tsx:237-246 | Back undoes Continue and Continue undoes Back |
| DigitalMenu.InitialForm | pages/DigitalMenu.tsx:25-30 | a table device starts with a table order for its table, anything else with a counter order; PIX; empty fields |
| DigitalMenu.BuildOrder | pages/DigitalMenu.tsx:55-73 | rejected iff the cart is empty, a table order has no table or a delivery order has no address, with reasons in that precedence; a built order is PREPARANDO with total = cart total, a table only for MESA and none otherwise, an address only for ENTREGA and none otherwise, change only for DINHEIRO with a value |
| DigitalMenu.CounterOrderNeedsOnlyItems | pages/DigitalMenu.tsx:56-58 | a counter order is built iff the cart is non-empty |
| DigitalMenu.MenuSession.constructor | pages/DigitalMenu.tsx:19-31 | empty cart, closed dialog on the cart step, not sending, initial form |
| DigitalMenu.MenuSession.AddToCart | pages/DigitalMenu.tsx:38-47 | the cart becomes `Cart.AddToCart` of the old cart |
| DigitalMenu.MenuSession.RemoveFromCart | pages/DigitalMenu.tsx:49-51 | the cart becomes `Cart.RemoveLine` of the old cart |
| DigitalMenu.MenuSession.OpenCart | pages/DigitalMenu.tsx:104 | the dialog opens on the cart step |
| DigitalMenu.MenuSession.CloseCart | pages/DigitalMenu.tsx:178 | the dialog closes |
| DigitalMenu.MenuSession.Back | pages/DigitalMenu.tsx:237-239 | past the first step, one step back |
| DigitalMenu.MenuSession.Checkout | pages/DigitalMenu.tsx:55-86 | a rejected checkout sends nothing and changes nothing; otherwise the built order's full record is sent, followed by the reduced record exactly when the full insert fails, the cart is emptied, the dialog closed and the step reset only when `addOrder` did not throw, and sending ends false |
| DigitalMenu.MenuSession.EditForm | pages/DigitalMenu.tsx:200-226 | the form's inputs replace the form and nothing else |
| DigitalMenu.MenuSession.Continue | pages/DigitalMenu.tsx:240-246 | disabled (nothing changes) with an empty cart or while sending; before the payment step advances one step and changes nothing else; on the payment step does what Checkout does: a rejected order is refused with its reason and changes nothing, a built order's full record is sent, followed by the reduced record exactly when the full insert fails, the cart is emptied, the dialog closed and the step reset exactly when the send did not fail, and sending ends false |
| OrdersList.Tables | pages/OrdersList.tsx:20 | twelve labels, the decimal forms of 1 to 12 |
| OrdersList.TablesAreOneToTwelve | pages/OrdersList.tsx:20 | the labels are exactly "1" … "12" in order |
| OrdersList.OccupiedTables | pages/OrdersList.tsx:22-24 | a table is occupied iff some order not delivered has that non-empty table number |
| OrdersList.CancelledStillOccupies | pages/OrdersList.tsx:22-24 | a cancelled order keeps its table occupied |
| OrdersList.DeliveredFreesTable | pages/OrdersList.tsx:22-24 | a table whose orders are all delivered is free |
| OrdersList.OfferedActions | pages/OrdersList.tsx:176-197 | cancel on every card; 'Pronto' iff PREPARANDO; 'Entregar' iff PRONTO |
| OrdersList.Target | pages/OrdersList.tsx:178-193 | no button asks for PREPARANDO |
| OrdersList.ActionsMoveForward | pages/OrdersList.tsx:176-197 | apart from cancel, buttons move one step forward; on a delivered or cancelled card only cancel is offered |
| OrdersList.PickerProducts | pages/OrdersList.tsx:63 | exactly the active products whose lower-cased name contains the lower-cased term, in catalogue order and as many times as the catalogue holds them |
| OrdersList.EmptySearchShowsActive | pages/OrdersList.tsx:63 | with an empty term the picker lists exactly the active products |
| OrdersList.BuildManualOrder | pages/OrdersList.tsx:34-45 | nothing without items or an open dialog; otherwise a PREPARANDO order of the dialog's type and table, with total = Σ price × quantity and no optional fields |
| OrdersList.ManualOrderSurvivesFallback | pages/OrdersList.tsx:37-45 | a manual order loses nothing when only the reduced record is stored |
| OrdersList.PlacedTableOrderOccupies | pages/OrdersList.tsx:20-46 | an order placed from a table's button marks that table occupied once its INSERT arrives |
| OrdersList.ManualOrderPanel.constructor | pages/OrdersList.tsx:15-17 | closed dialog, empty cart, empty search |
| OrdersList.ManualOrderPanel.TypeSearch | pages/OrdersList.tsx:218 | the search box sets the picker's term and nothing else |
| OrdersList.ManualOrderPanel.Open | pages/OrdersList.tsx:101 | the dialog opens with the chosen type and table |
| OrdersList.ManualOrderPanel.Close | pages/OrdersList.tsx:214 | the dialog closes and the cart is kept |
| OrdersList.ManualOrderPanel.AddToManualCart | pages/OrdersList.tsx:51-57 | the cart becomes `Cart.AddLine` of the old cart, with no active check |
| OrdersList.ManualOrderPanel.RemoveFromManualCart | pages/OrdersList.tsx:59-61 | the cart becomes `Cart.RemoveLine` of the old cart |
| OrdersList.ManualOrderPanel.ManualCheckout | pages/OrdersList.tsx:34-49 | nothing happens without items or an open dialog; otherwise the order's full record is sent, followed by the reduced record exactly when the full insert fails, and the cart is emptied and the dialog closed whatever the store answers |
| MenuManagement.Search | pages/MenuManagement.tsx:23 | exactly the products, active or not, whose lower-cased name contains the lower-cased term, in catalogue order and as many times as the catalogue holds them |
| MenuManagement.EmptySearchKeepsAll | pages/MenuManagement.tsx:23 | an empty search lists the whole catalogue in order |
| MenuManagement.FallbackCategory | pages/MenuManagement.tsx:36 | the first category when there is a non-empty one, else 'Geral'; never empty |
| MenuManagement.Normalize | pages/MenuManagement.tsx:31-40 | an existing id is kept, a fresh one given only when it is empty; name and description default to empty; price to 0; category to the first category then 'Geral'; image to the placeholder; only an absent active flag becomes true; weekday -1 becomes none |
| MenuManagement.FromProduct | pages/MenuManagement.tsx:120 | the edit draft holds every one of the product's own fields: id, name, description, price, category, image, active flag and weekday |
| MenuManagement.SaveUneditedKeepsProduct | pages/MenuManagement.tsx:31-40 | saving an unedited product with an id, category and image stores it unchanged, including an explicit `false` active flag |
| MenuManagement.NewDraft | pages/MenuManagement.tsx:102 | the new-product draft has the first category or empty, an empty description, weekday -1, active, and nothing else |
| MenuManagement.SaveUntouchedNewDraft | pages/MenuManagement.tsx:31-40 | a new product saved untouched is active, not featured, costs 0, has the fresh id, the placeholder image and a non-empty category |
| MenuManagement.WithCategory | pages/MenuManagement.tsx:66-75 | a blank name is ignored; a listed trimmed name is refused; otherwise the trimmed name is appended; a duplicate-free list stays duplicate-free |
| MenuManagement.AddTwiceIsDuplicate | pages/MenuManagement.tsx:69-73 | the same name submitted again is refused |
| MenuManagement.CategoryEditor.constructor | pages/MenuManagement.tsx:20 | the given list and an empty text box |
| MenuManagement.CategoryEditor.Type | pages/MenuManagement.tsx:293 | the text box holds the typed text |
| MenuManagement.CategoryEditor.AddCategory | pages/MenuManagement.tsx:66-75 | alerts iff the name is a duplicate; the list and the cleared box change only when a name was added; duplicate-freedom is kept |
| MenuManagement.ProductEditor.constructor | pages/MenuManagement.tsx:17-21 | no draft, dialog hidden, not saving |
| MenuManagement.ProductEditor.OpenNew | pages/MenuManagement.tsx:102 | the dialog shows the new-product draft |
| MenuManagement.ProductEditor.OpenEdit | pages/MenuManagement.tsx:120 | the dialog shows the product's draft |
| MenuManagement.ProductEditor.Close | pages/MenuManagement.tsx:160 | the dialog hides |
| MenuManagement.ProductEditor.Save | pages/MenuManagement.tsx:25-54 | nothing without a draft; otherwise the normalised record is sent, the dialog closes and the draft goes only when the save promise resolves, an alert is raised when it rejects, and saving ends false |
| TVBoard.Column | pages/TVBoard.tsx:12-13 | exactly the first min(8, n) of the n orders with the status, in list order |
| TVBoard.Preparing | pages/TVBoard.tsx:12 | the column of PREPARANDO orders: the first eight of them in list order |
| TVBoard.Ready | pages/TVBoard.tsx:13 | the column of PRONTO orders: the first eight of them in list order |
| TVBoard.ColumnsDisjoint | pages/TVBoard.tsx:12-13 | no order is in both columns; delivered and cancelled orders are in neither |
| TVBoard.NewOrderShownFirst | pages/TVBoard.tsx:12 | a new PREPARANDO order is shown first once its INSERT arrives |
| TVBoard.Label | pages/TVBoard.tsx:63 | the table number when set, otherwise the last three id characters in capitals |
| TVBoard.PreparingLabel | pages/TVBoard.tsx:44 | '#' followed by the label |
| TVBoard.LabelsCollide | pages/TVBoard.tsx:44 | orders without a table whose ids end in the same three characters get the same label |
| Dashboard.TotalSales | pages/AdminDashboard.tsx:13 | 0 for no orders; non-negative when every total is |
| Dashboard.TotalOrders | pages/AdminDashboard.tsx:14 | 0 iff there are no orders |
| Dashboard.TotalSalesConcat | pages/AdminDashboard.tsx:13 | the sales total splits over a concatenation |
| Dashboard.SalesIncludeEveryStatus | pages/AdminDashboard.tsx:13 | for any status, sales = sales of orders with it + sales of the others, so cancelled orders count |
| Dashboard.SameTotalsSameSales | pages/AdminDashboard.tsx:13 | lists with the same totals position by position have the same sales |
| Dashboard.StatusChangeKeepsSales | pages/AdminDashboard.tsx:13 | a status change, cancelling included, leaves sales unchanged |
| Dashboard.InsertAddsToFigures | pages/AdminDashboard.tsx:13-14 | a new order's INSERT adds its total and one order; a repeated one changes neither |
| Dashboard.Popular | pages/AdminDashboard.tsx:66 | the first min(5, n) products in order |
| Dashboard.PopularIgnoresLaterProducts | pages/AdminDashboard.tsx:66 | products inserted once five are listed never reach the list |
| StoreSettingsPage.HandleChange | pages/StoreSettingsPage.tsx:13-15 | the key holds the value; every other key is unchanged; writing the current value changes nothing |
| StoreSettingsPage.ChangeIdempotent | pages/StoreSettingsPage.tsx:14 | the same change twice equals once |
| StoreSettingsPage.ChangesCommute | pages/StoreSettingsPage.tsx:14 | changes to distinct keys commute |
| StoreSettingsPage.LastWriteWins | pages/StoreSettingsPage.tsx:14 | of two changes to one key the second wins |
| StoreSettingsPage.ChangeUndone | pages/StoreSettingsPage.tsx:14 | writing back the old value restores the settings |
| WaitstaffManagement.TogglePermission | pages/WaitstaffManagement.tsx:13-15 | the named flag is negated and every other key is unchanged |
| WaitstaffManagement.ToggleTwiceRestores | pages/WaitstaffManagement.tsx:14 | toggling twice restores the settings |
| WaitstaffManagement.TogglesCommute | pages/WaitstaffManagement.tsx:36-44 | the two switches can be toggled in either order |
| WaitstaffManagement.SetPrinterWidth | pages/WaitstaffManagement.tsx:68-74 | the width is set and every other key is unchanged |
| WaitstaffManagement.PrinterButtonsIdempotent | pages/WaitstaffManagement.tsx:68-74 | pressing a width button twice equals once, and the last press decides |
| WaitstaffManagement.FirstToggleGrants | pages/WaitstaffManagement.tsx:36-44 | from the initial settings one press grants that permission and leaves the other off |

## Left out

- Database I/O is not modelled. This covers the initial fetches, the channel subscriptions, authentication, and the product and settings writes. Each request's outcome is a parameter.
- The product delete handler (`handleDelete`) is left out: it is a confirmation dialog and one delete call with no logic of its own.
- The insert's audio cue, printing and the receipt layout are left out.
- Number and date formatting and the clock displays are left out.
- Random ids, `Date.now` and `getDay` are parameters.
- The hard-coded and random chart data are left out.
- Money is integer cents. The floating-point arithmetic and the `parseFloat`/`parseInt` of typed input are not modelled. An unreadable price draft is `None`, which the save turns into 0 as the source does for `NaN`.
- `DigitalMenu.CheckoutForm`'s change amount is `None` for an empty field. A non-numeric entry, which the source sends as `NaN`, is not modelled.
- `Text.Lower`, `Text.Upper` and `Text.Trim` act on the ASCII range only. JavaScript's full Unicode case mapping and white-space set are not modelled.
- `WaitstaffManagement.TogglePermission` requires a permission key. The source's signature accepts any key, but the page calls it only with the two permission flags.
- `StoreSettingsPage.HandleChange` requires a value of the key's declared type, which is all the page passes.
- The class methods run each step to completion. Interleavings of awaited calls with other events are not modelled, nor is the ordering of realtime events across sessions.
- `OrdersList.ManualOrderPanel.ManualCheckout` does not await `addOrder`. The model makes the request at the call and discards its error, which the source leaves unhandled.
- MenuManagement.ProductEditor.Save: the failure it models is a rejection of the `saveProduct` promise. The app's `saveProduct` (App.tsx:155) discards the store's error answer, so a store that answers with an error counts as a success there and here.
- Routing, the login pages, the waitress panel and the unused coupon and loyalty types are not part of this model.
- Order grouping by table, weight-priced items, status-transition enforcement, item removal from placed orders and enforcement of the waitstaff permissions are not modelled. The code has none of them.
