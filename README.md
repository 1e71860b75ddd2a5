# CPQ console: list views, proposal draft, layout and forms

A Dafny model of the front end of a CPQ (configure, price, quote) console.
It covers four parts of the console.

- **The five list pages:** Proposals, Customers, Products, Subscriptions and Invoices.
  - Each page keeps the fetched records, a filtered projection, the raw search text, the sort descriptor the table reported, and a loading flag.
  - The pages differ in three things: the record type, the field the search box looks at, and the column table with its comparators.
  - `TableView` holds the shared state machine as the class `ListView<T>`, plus the search predicate, the filter and the comparators.
  - One module per page holds that page's record type, search field and column table. It also holds the lemmas that pin that table down.
- **The Create Proposal page** (`CreateProposal`, `SelectedProduct`).
  - The product catalogue and the customer list it fetches.
  - The products selected into the draft. Selecting a product appends it, and the same product may be appended twice.
  - The running total. Each selected line reports its whole subtotal into it on mount and again on every change of quantity.
  - A ghost history of the reported values keeps `totalCost == Sum(reported)` as a class invariant.
  - Lemmas connect a line's sequence of edits to what it reports. The total grows by the unit price times the sum of the quantities the line went through.
- **The layout** (`CpqLayout`): the menu key to header title and route switch, the header button that depends on the title, the two modal flags, log out, and the route for a new proposal.
- **The Add Customer and Add Product forms** (`FormOutcome`, `AddCustomer`, `AddProduct`).
  - The token check.
  - The request that is posted.
  - How each way a post can settle becomes one message.
  - Whether the message is rendered.
  - Cancel.
  - The country to states table, and the country change that clears the chosen state.

Conventions:
- Navigation is recorded as a list of the paths passed to `navigate`.
- The `jwtToken` cookie is a value: a field of the layout and a parameter of `onFinish`.
- HTTP calls are replaced by their outcome, given as a parameter: `FetchOutcome` for a GET, `SubmitOutcome` for a POST.
- `undefined` and `null` are both `None`.
- Numbers are `real`, and a `NaN` from `parseFloat` is `None`.
- `localeCompare` is a parameter of the comparators.
- The generated proposal id is a parameter of `HandleCreateProposal`.

## Model

| member | source | states |
|---|---|---|
| `Text.ToLower` | src/Pages/Proposals/Proposals.tsx:38-40 | `toLowerCase` keeps the length and maps every character through the ASCII lower-casing |
| `Text.ToLowerIdempotent` | src/Pages/Proposals/Proposals.tsx:38-40 | lower-casing twice is lower-casing once |
| `Text.IncludesAtOffset` | src/Pages/Proposals/Proposals.tsx:38-40 | `s.includes(sub)` holds iff `sub` occurs in `s` at some offset |
| `Text.IncludesEmpty` | src/Pages/Proposals/Proposals.tsx:38-40 | every string includes the empty string |
| `TableView.EmptyQueryMatchesDefined` | src/Pages/Proposals/Proposals.tsx:37-41 | the empty query matches a record iff its title is defined |
| `TableView.MatchesIgnoresQueryCase` | src/Pages/Proposals/Proposals.tsx:37-41 | matching a query and matching its lower-cased form agree |
| `TableView.MatchesAtOffset` | src/Pages/Proposals/Proposals.tsx:37-41 | a title matches iff it is defined and the lower-cased query occurs at some offset of its lower-cased form |
| `TableView.FilterByTitle` | src/Pages/Proposals/Proposals.tsx:37-41 | the filtered list is no longer than the records and every kept record matches the query |
| `TableView.FilterPositions` | src/Pages/Proposals/Proposals.tsx:37-42 | the kept records sit at increasing positions of the input, and a position is kept iff its record matches |
| `TableView.FilterIsSubsequence` | src/Pages/Proposals/Proposals.tsx:37-42 | the projection is an order-preserving subsequence of the records |
| `TableView.FilterMembership` | src/Pages/Proposals/Proposals.tsx:37-41 | a record is in the projection iff it is among the records and its title is defined and lower-case-includes the lower-cased query |
| `TableView.FilterIdempotent` | src/Pages/Proposals/Proposals.tsx:34-43 | filtering the projection again with the same query changes nothing |
| `TableView.FilterIgnoresQueryCase` | src/Pages/Proposals/Proposals.tsx:38-40 | the projection is the same for a query and for its lower-cased form |
| `TableView.EmptyQueryKeepsAll` | src/Pages/Proposals/Proposals.tsx:38-40 | when every title is defined, the empty query keeps all records in order |
| `TableView.EmptyQueryDropsUndefined` | src/Pages/Proposals/Proposals.tsx:38-40 | the empty query still drops a record whose title is missing |
| `TableView.TextSorterOnDefined` | src/Pages/Proposals/Proposals.tsx:88-94 | when `localeCompare` is antisymmetric, the string comparator is antisymmetric on defined values, and a missing right value compares as '' |
| `TableView.NumberSorter` | src/Pages/Products/Products.tsx:125-127 | the numeric comparator is negative, zero or positive as the left value is below, equal to or above the right one, a missing value counting as 0 |
| `TableView.NumberSorterIsConsistent` | src/Pages/Products/Products.tsx:125-127 | a numeric comparator is 0 on equal arguments, antisymmetric and transitive, and a missing value behaves as 0 |
| `TableView.TextSorterAsymmetricOnUndefined` | src/Pages/Proposals/Proposals.tsx:88-94 | the string comparator is not antisymmetric: a missing left field gives 0, the same pair swapped does not |
| `TableView.Compare` | src/Pages/Products/Products.tsx:90-127 | a numeric column orders two records by its field, missing as 0; a text column gives 0 when the left field is missing and otherwise `localeCompare` against the right field or '' |
| `TableView.ColumnSortOrder` | src/Pages/Proposals/Proposals.tsx:95-98 | a column shows an order iff it has a sorter and its key is `sortedInfo.columnKey` and the order is set; the order it shows is `sortedInfo.order` |
| `TableView.AtMostOneColumnSorted` | src/Pages/Proposals/Proposals.tsx:95-98 | with distinct keys, two columns that both show an order are the same column |
| `TableView.ListView.constructor` | src/Pages/Proposals/Proposals.tsx:25-32 | on mount: no records, empty projection and search text, sort state `{}`, loader on |
| `TableView.ListView.HandleOnChangeInput` | src/Pages/Proposals/Proposals.tsx:34-43 | the raw text is stored and the projection is the full record set filtered by it; the projection stays a subsequence of the records |
| `TableView.ListView.HandleChange` | src/Pages/Proposals/Proposals.tsx:45-47 | the reported sorter replaces the sort state wholesale; the projection stays a subsequence of the records |
| `TableView.ListView.FetchData` | src/Pages/Proposals/Proposals.tsx:56-76 | records and projection both become the loaded array (or []), whatever the search text; the loader ends off |
| `TableView.ListView.SortOrderOf` | src/Pages/Proposals/Proposals.tsx:95-98 | a column's order, when set, is the active order and the column is the active key |
| `TableView.SearchTwice` | src/Pages/Proposals/Proposals.tsx:34-43 | after two keystrokes the projection depends only on the latest text |
| `Proposals.NewView` | src/Pages/Proposals/Proposals.tsx:25-32 | the Proposals page on mount, searching `customerOrProposalTitle` |
| `Proposals.Columns` | src/Pages/Proposals/Proposals.tsx:83-139 | the table has 5 columns whose keys are pairwise distinct, so at most one of them shows a sort order |
| `Proposals.ColumnsSortable` | src/Pages/Proposals/Proposals.tsx:83-139 | every column has a text sorter, displays the field its key names, and shows an order iff it is the active key |
| `Proposals.TextColumnsCompareOwnField` | src/Pages/Proposals/Proposals.tsx:88-137 | each column's comparator is the string comparator on that column's own field |
| `Proposals.UntitledNeverMatches` | src/Pages/Proposals/Proposals.tsx:37-41 | a proposal without a title is never in the projection, for any query |
| `Proposals.SearchBeforeLoad` | src/Pages/Proposals/Proposals.tsx:34-76 | text typed before the load stays in the box, yet the load shows every fetched proposal |
| `Customers.NewView` | src/Pages/Customers/Customers.tsx:33-40 | the Customers page on mount, searching `name` |
| `Customers.KeptIffNameIncludes` | src/Pages/Customers/Customers.tsx:42-48 | a customer is kept iff its lower-cased name includes the lower-cased query |
| `Customers.EmptyQueryShowsAll` | src/Pages/Customers/Customers.tsx:45-47 | the empty query shows every customer, in order |
| `Customers.NameSorter` | src/Pages/Customers/Customers.tsx:94-96 | the Name comparator is `localeCompare` of the two names |
| `Customers.Columns` | src/Pages/Customers/Customers.tsx:89-116 | the table has 4 columns whose keys are pairwise distinct, so at most one of them shows a sort order |
| `Customers.OnlyNameSortable` | src/Pages/Customers/Customers.tsx:94-97 | only the Name column can show an order, iff `columnKey` is 'name' and the order is set |
| `Products.NewView` | src/Pages/Products/Products.tsx:29-36 | the Products page on mount, searching `name` |
| `Products.KeptIffNameMatches` | src/Pages/Products/Products.tsx:41-43 | a product is kept iff its name is defined and lower-case-includes the query; order is preserved |
| `Products.Columns` | src/Pages/Products/Products.tsx:85-141 | the table has 9 columns whose keys are pairwise distinct, so at most one of them shows a sort order |
| `Products.OnlyNameAndUnitPriceSortable` | src/Pages/Products/Products.tsx:90-128 | only `name` and `unitPrice` have sorters and each shows an order only while it is the active key |
| `Products.UnitPriceSorter` | src/Pages/Products/Products.tsx:125-127 | the Unit Price comparator is `(a.unitPrice or 0) - (b.unitPrice or 0)`, 0 on a record with itself, and antisymmetric |
| `Products.UnitPriceSortsOtherField` | src/Pages/Products/Products.tsx:123-127 | the Unit Price column displays `unit_price` but sorts by `unitPrice`: records without `unitPrice` all compare equal |
| `Products.NameSorter` | src/Pages/Products/Products.tsx:90-92 | the Name comparator is the string comparator on `name` |
| `Subscriptions.NewView` | src/Pages/Subscriptions/Subscriptions.tsx:28-37 | the Subscriptions page on mount, searching `customerSubscriptionNo` |
| `Subscriptions.KeptIffNumberMatches` | src/Pages/Subscriptions/Subscriptions.tsx:42-46 | a subscription is kept iff its number is defined and lower-case-includes the query; order is preserved |
| `Subscriptions.Columns` | src/Pages/Subscriptions/Subscriptions.tsx:88-162 | the table has 8 columns whose keys are pairwise distinct, so at most one of them shows a sort order |
| `Subscriptions.SortableColumns` | src/Pages/Subscriptions/Subscriptions.tsx:93-161 | Next Payment, Auto Renewal and Status never show an order; every other column shows one iff it is the active key |
| `Subscriptions.TcvSorter` | src/Pages/Subscriptions/Subscriptions.tsx:128-130 | the TCV comparator counts a missing value as 0 and is antisymmetric |
| `Subscriptions.TextSortersUndefinedLeft` | src/Pages/Subscriptions/Subscriptions.tsx:93-146 | the four string comparators return 0 when the left field is missing |
| `Invoices.NewView` | src/Pages/Invoices/Invoices.tsx:28-35 | the Invoices page on mount, searching `invoiceNo` |
| `Invoices.KeptIffNumberMatches` | src/Pages/Invoices/Invoices.tsx:37-44 | an invoice is kept iff its number is defined and lower-case-includes the query; order is preserved |
| `Invoices.Columns` | src/Pages/Invoices/Invoices.tsx:84-156 | the table has 8 columns whose keys are pairwise distinct, so at most one of them shows a sort order |
| `Invoices.SortableColumns` | src/Pages/Invoices/Invoices.tsx:84-155 | Status never shows an order, the rest show one iff active, and at most one column shows an order |
| `Invoices.AmountAndBalanceSorters` | src/Pages/Invoices/Invoices.tsx:108-119 | the Amount and Balance comparators count a missing value as 0 and are antisymmetric |
| `Invoices.TextSortersUndefinedLeft` | src/Pages/Invoices/Invoices.tsx:89-148 | the string comparators return 0 when the left field is missing |
| `CreateProposal.FindFirst` | src/Pages/Proposals/CreateProposal.tsx:91-93 | `find` returns the first position with the id, or nothing iff no product has it |
| `CreateProposal.Sum` | src/Pages/Proposals/CreateProposal.tsx:101-105 | the accumulated total of non-negative reports is non-negative |
| `CreateProposal.SumAppend` | src/Pages/Proposals/CreateProposal.tsx:101-105 | the sum of reported values splits over concatenation |
| `CreateProposal.ProposalDraft.constructor` | src/Pages/Proposals/CreateProposal.tsx:26-30 | on mount: modal hidden, no customers, products or selection, total 0 |
| `CreateProposal.ProposalDraft.ShowModal` | src/Pages/Proposals/CreateProposal.tsx:32-34 | the Add Customer modal becomes visible |
| `CreateProposal.ProposalDraft.HandleOk` | src/Pages/Proposals/CreateProposal.tsx:36-38 | the modal becomes hidden |
| `CreateProposal.ProposalDraft.HandleCancel` | src/Pages/Proposals/CreateProposal.tsx:40-42 | the modal becomes hidden |
| `CreateProposal.ProposalDraft.FetchCustomers` | src/Pages/Proposals/CreateProposal.tsx:51-65 | an array response replaces the customers; anything else leaves them as they were |
| `CreateProposal.ProposalDraft.FetchProducts` | src/Pages/Proposals/CreateProposal.tsx:67-84 | an array response replaces the catalogue; a non-array response or an error empties it |
| `CreateProposal.ProposalDraft.HandleProductChange` | src/Pages/Proposals/CreateProposal.tsx:90-100 | a known id appends the first product with that id and keeps the earlier entries; an unknown id changes nothing |
| `CreateProposal.ProposalDraft.TotalOrderValue` | src/Pages/Proposals/CreateProposal.tsx:101-105 | the reported value is added to the total, which stays the sum of everything ever reported |
| `CreateProposal.SelectTwice` | src/Pages/Proposals/CreateProposal.tsx:95 | selecting the same product twice appends it twice |
| `SelectedProduct.Changes` | src/Pages/Proposals/SelectedProduct.tsx:19-29 | the quantities the effect fires for: at most one per edit, the first differing from the start and each from the one before |
| `SelectedProduct.FinalQuantity` | src/Pages/Proposals/SelectedProduct.tsx:19-25 | after a non-empty run of edits the quantity is the last edit's value (NaN as 0), whatever came before; with no edit it is the start |
| `SelectedProduct.Reports` | src/Pages/Proposals/SelectedProduct.tsx:26-29 | the line reports once per change of quantity |
| `SelectedProduct.ReportsAreSubtotals` | src/Pages/Proposals/SelectedProduct.tsx:26-29 | the k-th report is the full line total at the k-th new quantity, not a difference |
| `SelectedProduct.LineTotalDistributes` | src/Pages/Proposals/SelectedProduct.tsx:26 | line totals at one price add up as the line total of the summed quantities |
| `SelectedProduct.ReportedTotal` | src/Pages/Proposals/SelectedProduct.tsx:26-29 | over any sequence of edits, the reports sum to the unit price times the sum of the quantities the line changed to |
| `SelectedProduct.FinalIsLastChange` | src/Pages/Proposals/SelectedProduct.tsx:23-24 | the quantity after the edits is the last change, or the start if nothing changed |
| `SelectedProduct.ReportsConcat` | src/Pages/Proposals/SelectedProduct.tsx:27-29 | the reports of two batches of edits are the first batch's followed by the second's from where the first left off |
| `SelectedProduct.ThreeThenFour` | src/Pages/Proposals/SelectedProduct.tsx:19-29 | typing 3 then 4 at price 10 adds 70 to the page total while the line displays 40 |
| `SelectedProduct.SelectedProductLine.constructor` | src/Pages/Proposals/SelectedProduct.tsx:19-29 | on mount the quantity is 0 and one report of 0 times the price reaches the page |
| `SelectedProduct.SelectedProductLine.HandleProductQuantity` | src/Pages/Proposals/SelectedProduct.tsx:20-29 | NaN becomes 0, any other value (negative included) is stored; a change of value adds the new full subtotal to the page total |
| `SelectedProduct.ThreeThenFourOnPage` | src/Pages/Proposals/SelectedProduct.tsx:19-29 | on the page, one line at price 10 typed 3 then 4 leaves the total at 70 |
| `SelectedProduct.TwoLinesOnPage` | src/Pages/Proposals/CreateProposal.tsx:90-105 | two lines typed once each leave the total at the sum of their subtotals |
| `CpqLayout.HeaderActions` | src/Pages/CpqLayout/CpqLayout.tsx:122-136 | at most one header button; Create Proposal iff the title is 'Proposals', Add Customer iff 'Customers', Add Product iff 'Products' |
| `CpqLayout.Capitalize` | src/Pages/CpqLayout/CpqLayout.tsx:24-44 | a lower-case first letter becomes its capital, any other first character stays, and the rest is kept |
| `CpqLayout.CapitalizeChangesCaseOnly` | src/Pages/CpqLayout/CpqLayout.tsx:24-44 | capitalising changes case only: the lower-cased forms of a string and its capitalised form agree |
| `CpqLayout.CapitalizeLowerFirst` | src/Pages/CpqLayout/CpqLayout.tsx:24-44 | a key starting with a lower-case letter capitalises to that letter upper-cased followed by the rest |
| `CpqLayout.TitlesAreCapitalizedKeys` | src/Pages/CpqLayout/CpqLayout.tsx:24-44 | each of the five titles is its menu key capitalised |
| `CpqLayout.MenuTarget` | src/Pages/CpqLayout/CpqLayout.tsx:23-49 | the i-th menu key sets the i-th title and opens '/' followed by the key; any other key opens '/proposals' and sets no title |
| `CpqLayout.MenuKeyTarget` | src/Pages/CpqLayout/CpqLayout.tsx:23-49 | a menu key sets its capitalised self as title and opens `/<key>`; an unknown key opens '/proposals' without a title |
| `CpqLayout.MenuTitles` | src/Pages/CpqLayout/CpqLayout.tsx:23-49 | every title a click sets is one of the five page titles |
| `CpqLayout.MenuKeyActions` | src/Pages/CpqLayout/CpqLayout.tsx:23-136 | after a click the header shows the one matching button on Proposals, Customers and Products, and none on Subscriptions or Invoices |
| `CpqLayout.CreateProposalPathInjective` | src/Pages/CpqLayout/CpqLayout.tsx:51-54 | distinct ids give distinct routes, so a fresh id opens a fresh draft |
| `CpqLayout.Layout.constructor` | src/Pages/CpqLayout/CpqLayout.tsx:13-15 | on mount the title is 'Proposals' and both modals are hidden |
| `CpqLayout.Layout.HandleMenuClick` | src/Pages/CpqLayout/CpqLayout.tsx:23-49 | the key's title (if any) replaces the header and its route is navigated to; an unknown key keeps the header; the header stays one of the five titles |
| `CpqLayout.Layout.HandleCreateProposal` | src/Pages/CpqLayout/CpqLayout.tsx:51-54 | navigates to the draft route of the new id |
| `CpqLayout.Layout.HandleLogOut` | src/Pages/CpqLayout/CpqLayout.tsx:19-22 | the token cookie is removed and '/signin' is navigated to |
| `CpqLayout.Layout.HandleAddCustomer` | src/Pages/CpqLayout/CpqLayout.tsx:56-58 | opens the customer modal and changes nothing else |
| `CpqLayout.Layout.HandleAddCustomerCancel` | src/Pages/CpqLayout/CpqLayout.tsx:60-62 | closes the customer modal and changes nothing else |
| `CpqLayout.Layout.HandleAddProduct` | src/Pages/CpqLayout/CpqLayout.tsx:64-66 | opens the product modal and changes nothing else |
| `CpqLayout.Layout.HandleAddProductCancel` | src/Pages/CpqLayout/CpqLayout.tsx:67-69 | closes the product modal and changes nothing else |
| `CpqLayout.UnknownKeyKeepsHeader` | src/Pages/CpqLayout/CpqLayout.tsx:45-47 | from Customers, an unknown key opens '/proposals' yet the header and its Add Customer button stay |
| `CpqLayout.BothModalsOpen` | src/Pages/CpqLayout/CpqLayout.tsx:56-69 | the two modal flags are independent in the model: both can be set at once (the page, which shows each Add button under one title only, does not offer this sequence) |
| `FormOutcome.BearerRequest` | src/Pages/Customers/AddCustomer.tsx:42-47 | the post carries the endpoint, the form values and 'Bearer ' followed by the token |
| `FormOutcome.BearerRequestInjective` | src/Pages/Customers/AddCustomer.tsx:42-47 | the header carries the whole token: equal requests to one endpoint with one body were sent with one token |
| `FormOutcome.SubmitMessage` | src/Pages/Customers/AddCustomer.tsx:36-68 | without a token the login text; a success shows the server's message as sent; an error response shows 'Error: ' then the server's message or 'Unknown server error' when it is falsy; no response, another axios error and a non-axios error show their fixed texts |
| `FormOutcome.MissingTokenIgnoresOutcome` | src/Pages/Customers/AddCustomer.tsx:36-39 | with a missing or empty token, the message does not depend on any outcome and is shown |
| `FormOutcome.FailuresAreShown` | src/Pages/Customers/AddCustomer.tsx:50-68 | every failure produces a rendered message |
| `FormOutcome.SuccessShownIffServerMessage` | src/Pages/Customers/AddCustomer.tsx:48 | on success the message is the server's message, rendered iff it is non-empty |
| `AddCustomer.StatesFor` | src/Pages/Customers/AddCustomer.tsx:9-25 | the lookup is defined iff the country is in the table; a list it gives has no repeated state and shares no state with another country |
| `AddCustomer.StateTableWellFormed` | src/Pages/Customers/AddCustomer.tsx:9-25 | the table has india, usa and england; no list repeats a state; no state is under two countries |
| `AddCustomer.AddCustomerForm.constructor` | src/Pages/Customers/AddCustomer.tsx:28-30 | on mount the states are india's six and the message is empty and hidden |
| `AddCustomer.AddCustomerForm.OnFinish` | src/Pages/Customers/AddCustomer.tsx:32-69 | the message is the submit message with the create-failure text; without a token nothing is posted, otherwise the current values are posted once with the bearer token |
| `AddCustomer.AddCustomerForm.OnCancel` | src/Pages/Customers/AddCustomer.tsx:71-74 | all fields are reset and the message is cleared and hidden; the state list is kept |
| `AddCustomer.AddCustomerForm.HandleCountryChange` | src/Pages/Customers/AddCustomer.tsx:76-79 | the states become the table entry for the country; only the `state` field is unset; every other field is kept |
| `AddCustomer.SwitchCountryBeforeSubmit` | src/Pages/Customers/AddCustomer.tsx:32-79 | a state picked before a country change is not posted |
| `AddProduct.AddProductForm.constructor` | src/Pages/Products/AddProduct.tsx:8-9 | on mount the message is empty and hidden |
| `AddProduct.AddProductForm.OnFinish` | src/Pages/Products/AddProduct.tsx:11-48 | the message is the submit message with the add-failure text; without a token nothing is posted, otherwise the values are posted once with the bearer token |
| `AddProduct.AddProductForm.OnCancel` | src/Pages/Products/AddProduct.tsx:50-53 | all fields are reset and the message is cleared and hidden |
| `AddProduct.SubmitTwice` | src/Pages/Products/AddProduct.tsx:11-53 | a submit without a token posts nothing; one whose server returns an empty message posts once and shows nothing |

## Where the code and its description differ

The model follows the code in each of these cases.

- **Load:** a completed load shows every fetched record, even when the search box already holds text. The newly loaded data is not filtered again (`Proposals.SearchBeforeLoad`).
- **Empty query:** the empty query does not show a record whose title field is missing. The optional chain yields `undefined`, and `filter` drops it (`TableView.EmptyQueryDropsUndefined`).
- **String comparators:** a missing left field compares equal to anything. The comparator is therefore not antisymmetric (`TableView.TextSorterAsymmetricOnUndefined`).
- **Negative quantity:** a negative quantity is kept. Only `NaN` is turned into 0.
- **Page total:** the page total adds every reported subtotal, including the 0 reported on mount. Each later report is the line's whole new subtotal, not a difference. So after quantities q1..qn the total holds p\*(q1+...+qn), not p\*qn (`SelectedProduct.ReportedTotal`).

## Left out

- HTTP, cookies and routing are not performed.
  - A GET or POST is replaced by its outcome.
  - The cookie is a value.
  - `navigate` appends to a list of paths.
- The generated uuid is a parameter, so its freshness is not modelled. `CreateProposalPathInjective` shows that distinct ids give distinct routes.
- `localeCompare` is a parameter of the comparators, because locale collation cannot be expressed here. `toLowerCase` and the title capitalisation cover ASCII letters only.
- Floating point is not modelled.
  - Numbers are reals, so `NaN`, infinities, rounding, `-0` (which `Object.is` tells from `0` when React compares the quantity) and `toFixed(2)` formatting are not modelled.
  - `parseFloat` is reduced to its result, with `NaN` as `None`.
- The order in which asynchronous effects settle is not modelled. Each fetch or post is applied as one step once it has settled, and the two fetches of the Create Proposal page are independent steps.
- Antd and React internals are left out.
  - The sorting and pagination the table performs itself.
  - The cycling between ascend, descend and none.
  - Form validation rules.
  - How `Form.Item` writes the selected country into the form values.
  - `resetFields` restoring widget defaults: a reset is modelled as clearing the values.
  - Duplicate React keys and rendering.
- `TableView.Matches`: an `undefined` and a `null` title are both `None`, and so are an `undefined` and a `null` `sortOrder`.
- `Customers.Title`: the customer name is a required string. A record whose `name` is missing at run time would make `toLowerCase` throw. That crash is not modelled.
- `AddCustomer.StatesFor`: an unknown country gives `None`. The page would then fail when rendering `states.map`, and that failure is not modelled.
- `FormOutcome.SubmitOutcome`: a success body that is a string or a number yields an undefined `message`, which is `Created(None)`; a `null` success body throws inside the `try` and is the `NonAxiosError` case. A `null` error-response body is not modelled: reading its `message` throws inside the `catch`, and the message stays as it was.
- The Sign-in page, the protected route and the application shell are not part of this model.
