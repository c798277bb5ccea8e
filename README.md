# Bangaborn storefront core, modelled in Dafny

Bangaborn is a Next.js clothing shop with a public catalogue, a one-product
checkout and an admin area. This project models the rules that sit inside its
components and server actions, and proves what they guarantee. The model has
five parts.

- **Listing query state.** The catalogue is driven by URL query parameters.
  They are modelled as `URLSearchParams` holds them, an ordered list of
  name/value pairs (module `SearchParams`). `set` replaces the first pair of a
  name, drops the others, or appends. `delete` removes every pair of a name.
  This follows section 6.2 of the WHATWG URL Standard.
  - The listing page decodes the parameters with defaults (`ProductsPage`).
  - `fetchProducts` encodes a query, dropping empty fields (`ProductAction`).
  - The filter sidebar, the active-filter chips, the search/sort bar and the
    page selector each edit a copy of the list and push it (`FilterSideBar`,
    `ActiveFilters`, `SearchSortBar`, `Pagination`).
  - The admin list requests build their own query strings (`AdminAction`).
- **Order placement.**
  - The checkout sheet's validator, prices and request (`OrderFormDialog`).
  - The `createOrder` outcome (`OrderTypes`).
  - The confirmation's totals (`OrderConfirmation`).
- **Admin lists.** The orders and products tables replace their lists only
  after a successful response. A status change is a map over the list. A
  cancel or delete is a filter with one fewer in the total. The search is a
  filter.
  - Tables: `OrdersPanel`, `ProductsPanel`.
  - Status counters and tabs: `AdminDashboard`.
  - The status badge lookup: `OrderStatusBadge`.
  - Sign-in: `AdminLoginForm`, with the session cookie in `AdminAction`.
- **Product editing.** The admin product form has list edits, a nine-rule
  validator, and conversions from a product to the form and back to a request
  (`ProductForm`).
- **Small state machines.**
  - The image gallery's wrap-around index (`ProductImageGallery`).
  - The quantity stepper and the size gate before ordering (`ProductInfoPanel`).

Each component's state is a class whose methods are its handlers; their
`modifies` clauses say what they change. Each edit of a parameter list is a
method that returns the list it pushes, proved against a specification
function. The properties are proved about those functions. JavaScript's
string built-ins (`trim`, `replace(/\s/g, '')`, `toLowerCase`, `includes`,
`split`, `String`, `Number`) are in `Text`. `Array.prototype.filter` is in
`Seqs`.

The network is a parameter. Each remote call is a function from the request
to the response, so every contract says what happens for every possible
response. Each navigation is modelled by the path or parameter list it
pushes.

## Model

| member | source | states |
|---|---|---|
| SearchParams.Get | src/components/FilterSideBar.tsx:42 | `get(k)` is present exactly when a pair named `k` exists, and its value is the value of such a pair |
| SearchParams.Count | src/components/FilterSideBar.tsx:42-46 | the number of pairs named `k` is zero exactly when `k` is absent |
| SearchParams.Names | src/components/FilterSideBar.tsx:40-49 | the names of the list are exactly those present in it |
| SearchParams.Drop | src/components/ActiveFilter.tsx:31-32 | removing a set of names keeps every other name's first value and count, removes the given names, and changes nothing when none of them is present |
| SearchParams.DropDrop | src/components/ActiveFilter.tsx:31-32 | two removals in a row remove the union of the names |
| SearchParams.Delete | src/components/ActiveFilter.tsx:31 | `delete(k)` removes every pair named `k`; every other name keeps its value and count |
| SearchParams.Set | src/components/FilterSideBar.tsx:46 | `set(k, v)` leaves exactly one pair named `k`, holding `v`; every other name keeps its value and count |
| SearchParams.DeleteAfterSet | src/components/FilterSideBar.tsx:42-46 | deleting a name undoes any `set` of it |
| SearchParams.SetOther | src/components/FilterSideBar.tsx:52-55 | `set` on one name leaves another name's value and count alone |
| SearchParams.SetNames | src/components/FilterSideBar.tsx:46 | `set` adds its name and removes none |
| SearchParams.SetRepresents | src/actions/Admin.action.ts:112-116 | `set` on a list holding a map holds the map updated at that name |
| SearchParams.ProjectRepresents | src/actions/Admin.action.ts:62-65 | a list holding a map gives each name the map's value, once, or nothing |
| SearchParams.ToRecord | src/app/products/page.tsx:16-18 | the page's parameter record has exactly the list's names, each with its first value |
| Seqs.Filter | src/components/OrdersPanel.tsx:68 | `filter` keeps exactly the elements satisfying the predicate, in order, as a subsequence |
| Seqs.FilterAll | src/components/OrdersPanel.tsx:68-76 | a filter that keeps everything returns the list unchanged |
| Seqs.CountIf | src/components/AdminDashboard.tsx:38 | a count is at most the length |
| Seqs.CountIfFilter | src/components/AdminDashboard.tsx:38-39 | the count is the length of the filtered list |
| Seqs.CountDisjoint | src/components/AdminDashboard.tsx:38-39 | two conditions that never hold together count at most the whole list |
| Text.TrimStartSpec | src/components/ProductForm.tsx:80 | the leading part removed is blank and the rest is a suffix that does not start with white space |
| Text.TrimEndSpec | src/components/ProductForm.tsx:80 | the trailing part removed is blank and the rest is a prefix that does not end with white space |
| Text.TrimSpec | src/components/OrderFormDialog.tsx:43 | `trim()` returns a slice of the input with blank text on both sides and no white space at either end |
| Text.TrimIdempotent | src/components/ProductForm.tsx:80 | trimming twice is trimming once |
| Text.TrimEmptyIffBlank | src/components/OrderFormDialog.tsx:46 | `trim()` is empty exactly for blank text |
| Text.RemoveSpacesSpec | src/components/OrderFormDialog.tsx:44 | `replace(/\s/g, '')` leaves no white space, never lengthens the text, empties blank text and keeps text without white space |
| Text.RemoveSpacesKeeps | src/components/OrderFormDialog.tsx:44 | text without white space is returned unchanged |
| Text.RemoveSpacesAppend | src/components/OrderFormDialog.tsx:44 | removing white space distributes over concatenation |
| Text.ToLower | src/components/OrdersPanel.tsx:71 | `toLowerCase()` lowers each character in place and keeps the length |
| Text.ToLowerIdempotent | src/components/ProductsPanel.tsx:82 | lowering twice is lowering once |
| Text.Contains | src/components/OrdersPanel.tsx:71-73 | `includes(needle)` holds only when the needle fits in the text, and always for a prefix of the text, the empty text and the whole text included |
| Text.Utf16Length | src/components/OrderFormDialog.tsx:43-45 | `.length` lies between the number of characters and twice that, and equals it exactly when no character is outside the Basic Multilingual Plane |
| Text.Utf16LengthOfEmoji | src/components/OrderFormDialog.tsx:43 | one emoji is two code units long |
| Text.OrElse | src/components/SearchSortBar.tsx:26 | `o \|\| fallback` is the value when it is present and non-empty, else the fallback |
| Text.Split | src/components/SearchSortBar.tsx:43 | `split(sep)` gives at least one piece, no piece holds the separator, and joining the pieces with it gives the input back |
| Text.SplitNone | src/components/SearchSortBar.tsx:43 | text without the separator is one piece |
| Text.SplitFirst | src/components/SearchSortBar.tsx:43 | splitting at the first separator gives the part before it, then the pieces of the rest |
| Text.NatToString | src/components/Pagination.tsx:23 | `String(n)` for a natural number is non-empty decimal digits with no leading zero |
| Text.IntToString | src/components/Pagination.tsx:23 | `String(i)` for an integer is non-empty, starts with `-` exactly when `i` is negative, and is decimal digits otherwise |
| Text.NatToStringRoundTrip | src/components/Pagination.tsx:23 | reading back the decimal text of `n` gives `n` |
| Text.ParseNumber | src/components/ProductForm.tsx:112 | `Number('')` is 0 and `Number` of decimal digits is their value |
| Text.IntToStringRoundTrip | src/components/FilterSideBar.tsx:32-33 | `Number(String(i)) === i` for every integer |
| Text.NumberToString | src/components/FilterSideBar.tsx:52-55 | `String(x)` is `NaN` exactly for NaN, and `Number` of the text of any other number gives that number back |
| Catalog.QueryKeysDistinct | src/types/products.ts:34-46 | the eleven query field names are distinct |
| ActiveFilters.ChipsFor | src/components/ActiveFilter.tsx:23-25 | at most one chip per listed name, each for a present name and carrying that name's value |
| ActiveFilters.ChipsForComplete | src/components/ActiveFilter.tsx:23-25 | every listed name that is present has a chip, empty values included |
| ActiveFilters.ChipsForOrdered | src/components/ActiveFilter.tsx:17-25 | the chips follow the order of the name list |
| ActiveFilters.Active | src/components/ActiveFilter.tsx:17-25 | `active` holds at most 7 chips: exactly the `ACTIVE_KEYS` names present, with their values, in `ACTIVE_KEYS` order |
| ActiveFilters.ActiveDistinct | src/components/ActiveFilter.tsx:17-25 | no name gets two chips |
| ActiveFilters.Rendered | src/components/ActiveFilter.tsx:27 | the bar is shown exactly when some active name is present |
| ActiveFilters.ChipText | src/components/ActiveFilter.tsx:51 | price bounds show the taka sign before the raw value; other chips show the raw value |
| ActiveFilters.ChipsHaveLabels | src/components/ActiveFilter.tsx:7-15 | every chip's name has a caption |
| ActiveFilters.Remove | src/components/ActiveFilter.tsx:29-33 | `remove(k)` removes every `k` and every `page`, keeps every other pair's value and count, and the pushed list shows no chip for `k` |
| ActiveFilters.EmptyValueCounted | src/components/ActiveFilter.tsx:25 | a `color` parameter with an empty value is one chip here but counts zero in the sidebar's badge |
| ActiveFilters.OneChip | src/components/ActiveFilter.tsx:23-25 | a list holding only one active name shows exactly one chip |
| FilterSideBar.CountSet | src/components/FilterSideBar.tsx:37-38 | the count of names with a non-empty value is bounded by the names and is zero exactly when none has one |
| FilterSideBar.CountSetAgrees | src/components/FilterSideBar.tsx:37-38 | the count depends only on the values of the counted names |
| FilterSideBar.ActiveCount | src/components/FilterSideBar.tsx:37-38 | `activeCount` is at most 6 and is zero exactly when no filter has a non-empty value |
| FilterSideBar.ActiveCountIgnores | src/components/FilterSideBar.tsx:37-38 | setting or deleting `search`, `page` or any name outside the six filters leaves `activeCount` unchanged |
| FilterSideBar.Toggled | src/components/FilterSideBar.tsx:40-49 | `updateFilter(k, v)` removes `page`; a new value leaves `k` once with it; a null value or the current value removes `k`; other names are untouched |
| FilterSideBar.UpdateFilter | src/components/FilterSideBar.tsx:40-49 | the edits applied to the copy push exactly the toggled list |
| FilterSideBar.ToggleTwice | src/components/FilterSideBar.tsx:42-46 | from a list without `k`, clicking the same option twice only drops `page` |
| FilterSideBar.PriceApplied | src/components/FilterSideBar.tsx:51-57 | `applyPrice` writes both bounds once, removes `page` and keeps every other name |
| FilterSideBar.InitialPriceRange | src/components/FilterSideBar.tsx:31-34 | a missing or empty bound starts the slider at 0 or 10000; a present bound is read as a number |
| FilterSideBar.ApplyThenReload | src/components/FilterSideBar.tsx:31-34 | the slider rebuilt from a pushed price range shows the same range |
| FilterSideBar.Sidebar.constructor | src/components/FilterSideBar.tsx:28-34 | every section starts open and the slider starts from the URL |
| FilterSideBar.Sidebar.ToggleSection | src/components/FilterSideBar.tsx:85 | a header click flips that section only |
| FilterSideBar.Sidebar.SlidePrice | src/components/FilterSideBar.tsx:170 | moving the slider stores the new range |
| FilterSideBar.Sidebar.ApplyPrice | src/components/FilterSideBar.tsx:51-57 | the slider's range is pushed as `PriceApplied` describes |
| FilterSideBar.Sidebar.ClearAll | src/components/FilterSideBar.tsx:59-62 | an empty list is pushed, so no filter counts as active; the slider is reset to `[0, 10000]`, the range a sidebar mounted on the pushed query starts from; the open sections are kept |
| SearchSortBar.CurrentSort | src/components/SearchSortBar.tsx:26 | the menu value is `sortBy-sortOrder`, each part defaulting to `createdAt` and `desc` when missing or empty |
| SearchSortBar.SortFields | src/components/SearchSortBar.tsx:43 | `value.split('-')` gives the two dash-free parts of `a-b`, and `undefined` as the order when there is no dash |
| SearchSortBar.OptionKey | src/components/SearchSortBar.tsx:96-98 | the menu value of an option without dashes splits back into that option's field and order |
| SearchSortBar.SortApplied | src/components/SearchSortBar.tsx:42-49 | `handleSort` sets `sortBy` and `sortOrder` once each, removes `page` and keeps every other name |
| SearchSortBar.HandleSort | src/components/SearchSortBar.tsx:42-49 | the edits applied to the copy push exactly that list |
| SearchSortBar.OptionsHaveNoDash | src/types/products.ts:51-57 | no sort option's field or direction contains a dash or is empty |
| SearchSortBar.SortRoundTrip | src/components/SearchSortBar.tsx:96-98 | choosing any sort option and reading the menu back selects that option |
| SearchSortBar.SearchApplied | src/components/SearchSortBar.tsx:31-37 | a non-empty term sets `search` once, an empty term removes it, `page` is always removed and other names are kept |
| SearchSortBar.HandleSearch | src/components/SearchSortBar.tsx:31-37 | the edits applied to the copy push exactly that list |
| SearchSortBar.ClearSearch | src/components/SearchSortBar.tsx:51-56 | `clearSearch` removes `search` and keeps every other name, `page` included |
| SearchSortBar.ShowsClearButton | src/components/SearchSortBar.tsx:76 | the clear button is shown exactly for a non-empty search term |
| Pagination.WindowFrom | src/components/Pagination.tsx:28-30 | the window's numbers from a start are strictly increasing and are exactly those in range that get a button |
| Pagination.Pages | src/components/Pagination.tsx:28-30 | `pages` is strictly increasing and holds exactly the first, the last and the current page's neighbours within `1..totalPages` |
| Pagination.DistinctWithin | src/components/Pagination.tsx:28-30 | distinct page numbers drawn from a set are no more than the set |
| Pagination.PagesBounds | src/components/Pagination.tsx:28-30 | at most five buttons; the first is page 1 and the last is `totalPages` |
| Pagination.EllipsisMarksGap | src/components/Pagination.tsx:45-48 | an ellipsis goes before an entry exactly when some page between it and the previous entry has no button |
| Pagination.Rendered | src/components/Pagination.tsx:19 | nothing is rendered when `totalPages <= 1` |
| Pagination.ArrowsStayInWindow | src/components/Pagination.tsx:38 | on a page in range, the current page and the page an enabled arrow leads to have buttons |
| Pagination.GoTo | src/components/Pagination.tsx:21-26 | `goTo(p)` sets `page` once to `String(p)`, which reads back as `p`, and keeps every other name |
| ProductsPage.Decode | src/app/products/page.tsx:20-32 | `page`, `limit`, `sortBy` and `sortOrder` take `1`, `12`, `createdAt` and `desc` when missing or empty; the other seven fields are copied as they are |
| ProductsPage.DecodeIgnoresUnknown | src/app/products/page.tsx:20-32 | parameters outside the query's fields do not change the query |
| ProductsPage.AsRecord | src/app/products/page.tsx:20-32 | a query handed back as a record names only its fields and gives each its value |
| ProductsPage.DecodeIdempotent | src/app/products/page.tsx:20-32 | decoding a decoded query changes nothing |
| ProductsPage.DecodeWellFormed | src/app/products/page.tsx:20-32 | a URL without empty parameters decodes to a query whose fields are absent or non-empty |
| ProductsPage.RoundTrip | src/actions/product.action.ts:11-15 | the parameters `fetchProducts` sends for a well-formed query decode back to that query |
| ProductsPage.RoundTripField | src/actions/product.action.ts:11-15 | the round trip, one field at a time |
| ProductsPage.Listing | src/app/products/page.tsx:34-41 | a failed fetch shows no products, total 0, page 1, 0 pages and limit 12; otherwise the response |
| ProductsPage.Render | src/app/products/page.tsx:20-41 | the page requests exactly the encoding of the decoded query and shows the response or the fallback |
| ProductAction.Included | src/actions/product.action.ts:12 | a field is sent exactly when it is neither missing nor empty, with its own value |
| ProductAction.EncodeStepKeeps | src/actions/product.action.ts:11-15 | one step of the `forEach` extends the encoding by the next field |
| ProductAction.EncodeQuery | src/actions/product.action.ts:9-15 | the loop's parameters name each query field at most once and carry exactly the included fields with their values |
| ProductAction.FetchProducts | src/actions/product.action.ts:8-29 | the request is the encoded query; a non-ok response fails with `Failed to fetch products: ` and the status text |
| ProductAction.FetchProductBySlug | src/actions/product.action.ts:37-48 | the product path is requested; a non-ok response fails with `Product not found: ` and the status text, an ok one returns the body |
| AdminAction.CookieStore.constructor | src/actions/Admin.action.ts:34-36 | a fresh request has no token cookie |
| AdminAction.TokenCookie | src/actions/Admin.action.ts:20-25 | the cookie holds the token, is `httpOnly`, `lax`, lasts seven days and is `secure` only in production |
| AdminAction.AdminLogin | src/actions/Admin.action.ts:11-28 | the response is returned unchanged; the token is stored exactly when the response succeeds and carries a token |
| AdminAction.AdminLogout | src/actions/Admin.action.ts:30-32 | after logout no token is read |
| AdminAction.GetAdminToken | src/actions/Admin.action.ts:34-36 | the token is the cookie's value, or null when there is no cookie |
| AdminAction.Bearer | src/actions/Admin.action.ts:44 | the header is `Bearer ` and the token, or `Bearer null` when the token is missing |
| AdminAction.VerifyAdminToken | src/actions/Admin.action.ts:38-52 | without a token nothing is sent and the answer is false; otherwise the answer is true exactly when the reply has `success === true`, and a thrown request gives false |
| AdminAction.NumberParam | src/actions/Admin.action.ts:63-64 | a numeric argument is sent exactly when given and non-zero, as text reading back as the number |
| AdminAction.StatusParam | src/actions/Admin.action.ts:65 | the status is sent exactly when non-empty and not `all` |
| AdminAction.OrdersQueryMap | src/actions/Admin.action.ts:62-65 | the orders query holds only `page`, `limit` and `status`, each exactly when its rule sends it |
| AdminAction.AdminOrdersQuery | src/actions/Admin.action.ts:62-65 | the `set` calls build a list holding exactly that query, each name at most once |
| AdminAction.ProductsQueryMap | src/actions/Admin.action.ts:112-116 | the products query always has `page` and `limit`, defaulting to `1` and `12`, and `search` and `category` exactly when non-empty |
| AdminAction.SetWhenTruthy | src/actions/Admin.action.ts:115-116 | a conditional `set` adds the pair exactly when the value is non-empty |
| AdminAction.AdminProductsQuery | src/actions/Admin.action.ts:110-116 | the `set` calls build a list holding exactly that query and no other name |
| OrderTypes.CreateOrder | src/actions/order.action.ts:7-22 | a non-ok or unsuccessful response fails with the server's message or the default; otherwise the order is returned |
| OrderFormDialog.MobileAccepted | src/components/OrderFormDialog.tsx:44 | `01712345678` is accepted |
| OrderFormDialog.ValidBdPhone | src/components/OrderFormDialog.tsx:44 | a number matching `^01[3-9]\d{8}$` is exactly eleven decimal digits starting `01`, without white space |
| OrderFormDialog.OthersRejected | src/components/OrderFormDialog.tsx:44 | `0171234567` and `02123456789` are rejected |
| OrderFormDialog.SpaceIgnored | src/components/OrderFormDialog.tsx:44 | a space inside the number is removed before the pattern is tested |
| OrderFormDialog.SpaceDropped | src/components/OrderFormDialog.tsx:44 | removing white space from a spaced number removes it from both halves |
| OrderFormDialog.ValidationMeans | src/components/OrderFormDialog.tsx:41-48 | each field is flagged exactly when its rule fails: trimmed name under 2 UTF-16 code units (JavaScript's `.length`), phone not matching `^01[3-9]\d{8}$` without white space, trimmed address under 10 code units, blank city; each with its message |
| OrderFormDialog.EmojiNameAccepted | src/components/OrderFormDialog.tsx:43 | a name of one emoji is two code units long and passes the name rule |
| OrderFormDialog.Validate | src/components/OrderFormDialog.tsx:41-48 | filling the errors object one rule at a time gives exactly `Validation`, lengths counted in UTF-16 code units |
| OrderFormDialog.DisplayPrice | src/components/OrderFormDialog.tsx:69 | the discount price when present, even zero; else the price |
| OrderFormDialog.ShippingCost | src/components/OrderFormDialog.tsx:70 | 70 inside Dhaka, 120 outside |
| OrderFormDialog.PriceSummary | src/components/OrderFormDialog.tsx:69-72 | subtotal is display price times quantity; total is subtotal plus the fee |
| OrderFormDialog.ZoneDifference | src/components/OrderFormDialog.tsx:70-72 | ordering outside Dhaka costs exactly 50 more |
| OrderFormDialog.ValidPayloadFields | src/components/OrderFormDialog.tsx:87-103 | the request of a valid form has a name of at least 2 UTF-16 code units, an address of at least 10 and a non-empty city, none starting or ending with white space, the chosen zone, and exactly one item with the chosen product, size, colour and quantity |
| OrderFormDialog.PhoneSentAsTyped | src/components/OrderFormDialog.tsx:44 | a number with an inner space passes validation, but the request carries it with the space, which the pattern rejects |
| OrderFormDialog.SpacedExample | src/components/OrderFormDialog.tsx:87-92 | `0171 2345678` passes the phone check once its white space is removed, is sent as typed by `trim()`, and the text sent fails the same check |
| OrderFormDialog.Resolve | src/components/OrderFormDialog.tsx:105-113 | a successful order is placed with its zone; a failure carries the `createOrder` message |
| OrderFormDialog.OrderForm.constructor | src/components/OrderFormDialog.tsx:59-67 | an empty form, inside Dhaka, without errors |
| OrderFormDialog.OrderForm.Set | src/components/OrderFormDialog.tsx:74-77 | editing a field changes only that field and clears only its error |
| OrderFormDialog.OrderForm.HandleSubmit | src/components/OrderFormDialog.tsx:79-115 | a form with errors stores them, shows the notice and sends nothing; a valid form sends the payload and resolves the answer, notifying a failure |
| OrderConfirmation.Breakdown | src/components/OrderConfirmation.tsx:27-29 | fee 70 or 120 by zone, subtotal price times quantity, total their sum, whatever the order argument |
| OrderConfirmation.SameAsCheckout | src/components/OrderConfirmation.tsx:27-29 | given the checkout's display price, the confirmation shows the checkout's figures |
| OrderConfirmation.ShowsShippingBlock | src/components/OrderConfirmation.tsx:143 | the address block is shown exactly when the order carries shipping details |
| OrderStatusBadge.Keys | src/components/OrderStatusBadge.tsx:5-12 | the table's keys, in order |
| OrderStatusBadge.Own | src/components/OrderStatusBadge.tsx:15 | an own entry is found exactly when the table has that key |
| OrderStatusBadge.TableCoversStatuses | src/components/OrderStatusBadge.tsx:5-12 | exactly the six statuses are configured, each labelled with its own name |
| OrderStatusBadge.Index | src/components/OrderStatusBadge.tsx:15 | indexing the object finds an own entry, else an inherited member of `Object.prototype`, else `undefined` |
| OrderStatusBadge.BadgeAsWritten | src/components/OrderStatusBadge.tsx:15 | `?? STATUS_CONFIG.Pending` replaces only `undefined` |
| OrderStatusBadge.InheritedNameBypassesFallback | src/components/OrderStatusBadge.tsx:15 | the status `constructor` gets an inherited member rather than a configuration |
| OrderStatusBadge.BadgeFor | src/components/OrderStatusBadge.tsx:5-15 | a known status gets the entry labelled with its name; every other string gets the Pending entry |
| OrderStatusBadge.BadgeAgrees | src/components/OrderStatusBadge.tsx:15 | apart from the inherited names, the lookup as written gives exactly that entry |
| OrderStatusBadge.BadgeLabelKnown | src/components/OrderStatusBadge.tsx:15 | every input yields a configuration with a known status label |
| ProductInfoPanel.Step | src/components/ProductInfoPanel.tsx:226-228 | decrement gives `max(1, q - 1)`; increment gives `min(stock, q + 1)` |
| ProductInfoPanel.RunStaysInRange | src/components/ProductInfoPanel.tsx:226-228 | starting within `[1, stock]`, any sequence of presses stays within it |
| ProductInfoPanel.EmptyStockIncrement | src/components/ProductInfoPanel.tsx:228 | with no stock, `+` takes every quantity that is not negative to 0 |
| ProductInfoPanel.OrderButtonDisabled | src/components/ProductInfoPanel.tsx:47 | the order button is disabled exactly when stock is not positive |
| ProductInfoPanel.InitialColor | src/components/ProductInfoPanel.tsx:30 | the first colour, or none when there are none |
| ProductInfoPanel.Panel.constructor | src/components/ProductInfoPanel.tsx:29-41 | no size, the first colour, quantity 1, every dialog closed |
| ProductInfoPanel.Panel.SelectSize | src/components/ProductInfoPanel.tsx:206 | selecting a size stores it and clears the size error; every other field keeps its value |
| ProductInfoPanel.Panel.SelectColor | src/components/ProductInfoPanel.tsx:172 | selecting a colour stores it; every other field keeps its value |
| ProductInfoPanel.Panel.RequireSize | src/components/ProductInfoPanel.tsx:49-56 | the gate passes exactly when a size is selected, and otherwise raises the size error; every other field keeps its value |
| ProductInfoPanel.Panel.OrderNow | src/components/ProductInfoPanel.tsx:64-67 | with a size the order form opens; without one it stays closed and the size error is raised; every other field keeps its value |
| ProductInfoPanel.Panel.Decrement | src/components/ProductInfoPanel.tsx:226 | the quantity steps down, never below 1; every other field keeps its value |
| ProductInfoPanel.Panel.Increment | src/components/ProductInfoPanel.tsx:228 | the quantity steps up, never above stock; every other field keeps its value |
| ProductInfoPanel.Panel.CloseOrderForm | src/components/ProductInfoPanel.tsx:81 | the order form closes; every other field keeps its value |
| ProductInfoPanel.Panel.OrderSuccess | src/components/ProductInfoPanel.tsx:69-73 | the order and zone are stored and the confirmation opens, so it is shown exactly when an order came back; nothing else changes |
| ProductImageGallery.Next | src/components/ProductImageGallery.tsx:137 | next is `(i + 1) mod n`, within `[0, n)` |
| ProductImageGallery.Prev | src/components/ProductImageGallery.tsx:131 | previous is `(i - 1 + n) mod n`, within `[0, n)` |
| ProductImageGallery.PrevNext | src/components/ProductImageGallery.tsx:131-137 | previous undoes next and next undoes previous |
| ProductImageGallery.Forward | src/components/ProductImageGallery.tsx:137 | `k` presses of next stay within `[0, n)` |
| ProductImageGallery.ForwardNoWrap | src/components/ProductImageGallery.tsx:137 | before the end, `k` presses advance by `k` |
| ProductImageGallery.ForwardSplit | src/components/ProductImageGallery.tsx:137 | `a + b` presses are `a` presses then `b` |
| ProductImageGallery.ForwardCycle | src/components/ProductImageGallery.tsx:137 | `n` presses of next return to the start |
| ProductImageGallery.MainImage | src/components/ProductImageGallery.tsx:93 | the main image is the active one, or `/placeholder.jpg` when it is missing or empty |
| ProductImageGallery.HasMultiple | src/components/ProductImageGallery.tsx:22 | the arrows, thumbnails and counter are shown exactly when each arrow moves away from every image |
| ProductImageGallery.CounterReadsPosition | src/components/ProductImageGallery.tsx:122 | the counter starts with the decimal digits of the one-based position of the shown image |
| ProductImageGallery.Gallery.constructor | src/components/ProductImageGallery.tsx:17-18 | the first image, not zoomed |
| ProductImageGallery.Gallery.Select | src/components/ProductImageGallery.tsx:61 | a thumbnail click shows that image and keeps the zoom |
| ProductImageGallery.Gallery.ToggleZoom | src/components/ProductImageGallery.tsx:79 | a click on the main image flips the zoom and keeps the image |
| ProductImageGallery.Gallery.NextImage | src/components/ProductImageGallery.tsx:137 | the next arrow steps forward with wrap-around and keeps the zoom |
| ProductImageGallery.Gallery.PrevImage | src/components/ProductImageGallery.tsx:131 | the previous arrow steps back with wrap-around and keeps the zoom |
| ProductForm.Get | src/components/ProductForm.tsx:26-40 | each field holds a value of its declared kind |
| ProductForm.Put | src/components/ProductForm.tsx:72 | `{ ...f, [key]: val }` changes that field and no other |
| ProductForm.ToForm | src/components/ProductForm.tsx:44-60 | no product gives a blank form; a product gives text for price and stock, and an empty discount exactly when it has none |
| ProductForm.Without | src/components/ProductForm.tsx:258 | `filter((x) => x !== s)` is `Array.prototype.filter` with that test: every `s` is removed and the other entries keep their order and number of copies |
| ProductForm.WithoutAbsent | src/components/ProductForm.tsx:258 | removing an absent entry changes nothing |
| ProductForm.WithoutLast | src/components/ProductForm.tsx:77 | removing `s` from a list ending in `s` removes it from the rest |
| ProductForm.ToggleSize | src/components/ProductForm.tsx:76-77 | a chosen size is removed everywhere, the others keeping their order and number of copies; any other size is appended |
| ProductForm.ToggleSizeTwice | src/components/ProductForm.tsx:76-77 | toggling a new size on and off restores the list |
| ProductForm.AddEntry | src/components/ProductForm.tsx:79-89 | the trimmed input is appended only when non-empty and not already present |
| ProductForm.AddEntryKeepsClean | src/components/ProductForm.tsx:79-89 | a list without empty entries or duplicates stays so |
| ProductForm.AddEntryBlank | src/components/ProductForm.tsx:80-81 | blank input leaves the list unchanged |
| ProductForm.RemoveAt | src/components/ProductForm.tsx:288 | the image at `i` is dropped, the others keep their order, and the multiset loses exactly that image |
| ProductForm.FailsMeans | src/components/ProductForm.tsx:108-121 | the rules fail exactly for blank text, non-numeric price or stock, an unchosen category or gender, or an empty list; no rule fails exactly when the form is complete |
| ProductForm.Message | src/components/ProductForm.tsx:110-118 | each of the nine checked fields has a message of its own and no other field has one |
| ProductForm.Numeric | src/components/ProductForm.tsx:112-119 | a non-empty run of decimal digits passes `!s \|\| isNaN(Number(s))`, and anything that passes is non-empty and starts with a digit or a minus sign |
| ProductForm.Cleared | src/components/ProductForm.tsx:73 | clearing one field's error keeps the others |
| ProductForm.ValidationFlags | src/components/ProductForm.tsx:108-121 | the record holds each failed rule's message and nothing else |
| ProductForm.Validate | src/components/ProductForm.tsx:108-119 | setting the errors one rule at a time gives exactly `Validation` |
| ProductForm.ValidatePasses | src/components/ProductForm.tsx:120 | `validate()` returns true exactly for a complete form |
| ProductForm.ToPayload | src/components/ProductForm.tsx:126-131 | an empty discount is sent as undefined; a numeric price or stock is sent as a number |
| ProductForm.LoadedRoundTrip | src/components/ProductForm.tsx:44-60 | saving a loaded product unchanged sends back its own price, discount, stock and lists |
| ProductForm.LoadedValidity | src/components/ProductForm.tsx:108-121 | a loaded product passes validation exactly when its texts, category, gender and lists are filled |
| ProductForm.BlankFormFailsAll | src/components/ProductForm.tsx:108-121 | the blank form fails all nine rules |
| ProductForm.ProductEditor.constructor | src/components/ProductForm.tsx:63-66 | the form starts from `toForm` with empty inputs and no errors |
| ProductForm.ProductEditor.SetField | src/components/ProductForm.tsx:71-74 | `set(key, val)` changes only that field and clears only its error |
| ProductForm.ProductEditor.ToggleSizeOption | src/components/ProductForm.tsx:76-77 | the sizes are toggled and only their error is cleared; every other field keeps its value |
| ProductForm.ProductEditor.TypeColor | src/components/ProductForm.tsx:247 | typing stores the colour input; every other field keeps its value |
| ProductForm.ProductEditor.TypeTag | src/components/ProductForm.tsx:304 | typing stores the tag input; every other field keeps its value |
| ProductForm.ProductEditor.AddColor | src/components/ProductForm.tsx:79-83 | the colours change as `AddEntry` says, the input is cleared, and the error is cleared only when the list changed; every other field keeps its value |
| ProductForm.ProductEditor.AddTag | src/components/ProductForm.tsx:85-89 | the same for tags; every other field keeps its value |
| ProductForm.ProductEditor.RemoveColor | src/components/ProductForm.tsx:258 | the colour is removed and only the colours' error is cleared; every other field keeps its value |
| ProductForm.ProductEditor.RemoveTag | src/components/ProductForm.tsx:312 | the tag is removed and only the tags' error is cleared; every other field keeps its value |
| ProductForm.ProductEditor.RemoveImage | src/components/ProductForm.tsx:288 | the image at that index is removed and only the images' error is cleared; every other field keeps its value |
| ProductForm.ProductEditor.AddUploaded | src/components/ProductForm.tsx:91-99 | uploaded URLs are appended in order and the images error is cleared; an empty selection returns early and changes neither the form nor the errors; the colour and tag inputs keep their value |
| ProductForm.ProductEditor.HandleSubmit | src/components/ProductForm.tsx:123-147 | errors are stored; an incomplete form sends nothing; a complete one sends the payload, with the id when editing; the reply decides saved or the failure message; every other field keeps its value |
| OrdersPanel.WithStatus | src/components/OrdersPanel.tsx:47 | the orders with that id get the status; every other order and every other field is unchanged, and so is the length |
| OrdersPanel.WithStatusAbsent | src/components/OrdersPanel.tsx:47 | a change for an unlisted id changes nothing |
| OrdersPanel.WithoutId | src/components/OrdersPanel.tsx:59 | every order with that id is removed; the rest keep their order and number of copies |
| OrdersPanel.MatchSearch | src/components/OrdersPanel.tsx:69-73 | an order is found by its own id, its own phone number, or its customer name typed in any case; a non-empty search only matches a field at least as long as the search |
| OrdersPanel.Filtered | src/components/OrdersPanel.tsx:68-76 | the shown orders are exactly those matching the search and the status filter, as a subsequence |
| OrdersPanel.ShowAll | src/components/OrdersPanel.tsx:68-76 | no search and status `all` show every order |
| OrdersPanel.NameMatchIgnoresCase | src/components/OrdersPanel.tsx:71 | the name match lowers both the name and the search |
| OrdersPanel.CancelDisabled | src/components/OrdersPanel.tsx:258 | the cancel button is disabled exactly while pending or for a cancelled order |
| OrdersPanel.ReloadQuery | src/components/OrdersPanel.tsx:34 | a reload asks for 50 orders and sends a status only when it is not empty or `all` |
| OrdersPanel.Panel.constructor | src/components/OrdersPanel.tsx:25-29 | the initial list and total, status `all`, no search, no open row |
| OrdersPanel.Panel.Reload | src/components/OrdersPanel.tsx:32-41 | a successful response replaces the list and total; a failure keeps both |
| OrdersPanel.Panel.SelectStatus | src/components/OrdersPanel.tsx:91 | choosing a status stores it and reloads with it; every other field keeps its value |
| OrdersPanel.Panel.SetSearch | src/components/OrdersPanel.tsx:87 | typing stores the search; every other field keeps its value |
| OrdersPanel.Panel.ChangeStatus | src/components/OrdersPanel.tsx:43-53 | a success sets that order's status and notifies it; a failure keeps the list and shows the server's message or the default; every other field keeps its value |
| OrdersPanel.Panel.Cancel | src/components/OrdersPanel.tsx:55-66 | a success removes the order and counts one fewer; a failure keeps list and total and shows the message; every other field keeps its value |
| OrdersPanel.Panel.ToggleRow | src/components/OrdersPanel.tsx:132 | an open row collapses; any other row becomes the only open one; every other field keeps its value |
| ProductsPanel.ViewOf | src/components/ProductsPanel.tsx:61-79 | null shows the list, `new` the create form, a product the edit form for it |
| ProductsPanel.FormProduct | src/components/ProductsPanel.tsx:73 | the form gets no product exactly for `new` |
| ProductsPanel.Filtered | src/components/ProductsPanel.tsx:81-83 | the shown products are exactly those matching the search, as a subsequence |
| ProductsPanel.Matches | src/components/ProductsPanel.tsx:82 | a product is found by its name or category typed in any case; a non-empty search only matches a field at least as long as the search |
| ProductsPanel.EmptySearchShowsAll | src/components/ProductsPanel.tsx:81-83 | an empty search shows every product |
| ProductsPanel.SearchIgnoresCase | src/components/ProductsPanel.tsx:82 | a search matches exactly when its lower-case form does |
| ProductsPanel.WithoutProduct | src/components/ProductsPanel.tsx:45 | every product with that id is removed; the rest keep their order and number of copies |
| ProductsPanel.ReloadQuery | src/components/ProductsPanel.tsx:32 | every reload asks for page 1 of 50 products and adds the search only when it is non-empty |
| ProductsPanel.Panel.constructor | src/components/ProductsPanel.tsx:23-27 | the initial list and total, no search, no form, no dialog |
| ProductsPanel.Panel.Reload | src/components/ProductsPanel.tsx:30-39 | a reload asks for 50 products with the search; success replaces list and total, failure keeps them |
| ProductsPanel.Panel.Type | src/components/ProductsPanel.tsx:94 | typing stores the search and reloads with it; every other field keeps its value |
| ProductsPanel.Panel.AskDelete | src/components/ProductsPanel.tsx:139 | the confirm dialog opens for that product; every other field keeps its value |
| ProductsPanel.Panel.DismissDelete | src/components/ProductsPanel.tsx:210 | the confirm dialog closes; every other field keeps its value |
| ProductsPanel.Panel.Delete | src/components/ProductsPanel.tsx:41-53 | a success removes the product, counts one fewer and closes the dialog; a failure keeps everything and shows the message |
| ProductsPanel.Panel.Edit | src/components/ProductsPanel.tsx:101 | the create or edit form opens; every other field keeps its value |
| ProductsPanel.Panel.Saved | src/components/ProductsPanel.tsx:55-58 | back to the list, reloaded with the current search; every other field keeps its value |
| AdminDashboard.CountStatus | src/components/AdminDashboard.tsx:38-39 | the number of orders with the given status, counted as the filter keeps them (the stats bar shows it for Pending and Delivered) |
| AdminDashboard.CountersBounded | src/components/AdminDashboard.tsx:38-39 | pending plus delivered is at most the number of orders |
| AdminDashboard.AllPending | src/components/AdminDashboard.tsx:38-39 | a list of pending orders counts all pending and none delivered |
| AdminDashboard.ContentFor | src/components/AdminDashboard.tsx:123-150 | the selected tab alone decides the heading, the count and the panel |
| AdminDashboard.Dashboard.constructor | src/components/AdminDashboard.tsx:34 | the orders tab is selected first |
| AdminDashboard.Dashboard.SelectTab | src/components/AdminDashboard.tsx:76 | a tab click selects that tab |
| AdminDashboard.Dashboard.Logout | src/components/AdminDashboard.tsx:41-47 | the token is gone and the login page is next |
| AdminLoginForm.LoginForm.constructor | src/components/AdminLoginForm.tsx:17-19 | empty fields, no error, password hidden |
| AdminLoginForm.LoginForm.TypeEmail | src/components/AdminLoginForm.tsx:91 | typing stores the email; every other field keeps its value |
| AdminLoginForm.LoginForm.TypePassword | src/components/AdminLoginForm.tsx:110 | typing stores the password; every other field keeps its value |
| AdminLoginForm.LoginForm.ToggleShowPass | src/components/AdminLoginForm.tsx:116 | the eye button flips the password's visibility; every other field keeps its value |
| AdminLoginForm.LoginForm.Submit | src/components/AdminLoginForm.tsx:21-37 | an empty field sets `Both fields are required.` and sends nothing; otherwise the error is cleared and the fields are sent; success goes to the dashboard; failure shows the server's message or `Invalid credentials`; the fields and the password visibility are kept, and the session cookie changes only when a successful login returns a token |
| AdminLoginForm.LoginForm.KeyDown | src/components/AdminLoginForm.tsx:92 | Enter in either field submits exactly as the button does: an empty field sets the required message and sends nothing, with no destination and the cookie kept; a success clears the error and goes to the dashboard, storing the token only when one is returned; a refusal keeps the cookie and shows the server message or "Invalid credentials"; any other key sends nothing and changes neither the form nor the cookie; the fields and the password visibility are kept either way |

## Left out

- Rendering, layout, animation, skeletons and the static marketing pages: they carry no rule.
- The network, JSON parsing, caching and `cookies()`: each remote call is a function from request to response, and each navigation is modelled by the path or list it pushes.
- The pass-through admin calls `updateOrderStatus`, `cancelOrder`, `createProduct`, `updateProduct`, `deleteProduct` and `fetchAdminSingleOrder`: they only forward a request; their answers are modelled as an abstract `success`/`message` reply.
- A request that throws in `fetchAdminOrders`, `fetchAdminProducts` and the list handlers: it is modelled as an unsuccessful reply. Only `verifyAdminToken` distinguishes a throw, as its own `catch` does.
- Percent-encoding by `URLSearchParams.toString()`: query state is the list of pairs.
- Repeated URL parameters that the framework hands to a page as arrays: a page sees each name's first value.
- `Number()` on text other than an optional minus sign followed by decimal digits, such as fractions, exponents, hexadecimal and padded text: the model parses integers, and everything else is NaN.
- The `discountPct` percentages, rounding over floats, and `toLocaleString`: floating point.
- `trim`, `\s` and `toLowerCase` outside ASCII: only the ASCII white-space set and ASCII letters are modelled.
- The 400 ms search debounce, the `setTimeout` flash resets and scroll listeners: timing. `HandleSearch` models what runs once the delay has passed.
- `useTransition`, `isPending` and overlapping reloads: concurrency. `CancelDisabled` takes the pending flag as an input.
- The Cloudinary upload: network. `AddUploaded` takes the URLs it returns.
- The toast texts of the product form: only whether the save succeeded or failed, with its message, is modelled.
- The `'Failed to place order.'` branch of the checkout: `createOrder` only throws `Error` values, so this branch cannot be reached.
- `jwt.decode` on the admin page, `server-action.ts`, `EasyCatch.tsx` and `useCloudinaryUpload.tsx`: they depend on code outside the repository.
- OrderFormDialog.OrderForm.Set: a cleared error is modelled as an absent message; the source clears it only when it is set, which has the same effect.

## Findings

| source | as written | input that shows it | evidently intended | confidence | as-written member | corrected member |
|---|---|---|---|---|---|---|
| src/components/OrderStatusBadge.tsx:15 | `STATUS_CONFIG[status] ?? STATUS_CONFIG.Pending` indexes a plain object, so a name inherited from `Object.prototype` is not `undefined` and skips the fallback | the status `constructor` (or `toString`, `hasOwnProperty`, ...) yields a function in place of a configuration | every status outside the six falls back to the Pending entry | low; not executed | OrderStatusBadge.BadgeAsWritten, OrderStatusBadge.InheritedNameBypassesFallback | OrderStatusBadge.BadgeFor |
