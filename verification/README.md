# Storefront core, modelled in Dafny

A React storefront with an administrator area. This project models the parts
of it that decide things: the product listing page (filter, sort, pages and
page buttons), the administrator's user table (filter, sort, selection, bulk
actions), the product form (field edits, the seven validation rules, brand
choices, the submitted record), the administrator's dashboard (add, edit and
delete of products, order deletion and status updates, the stat counters,
the two filters), the session store (user and cart mirrored into browser
storage), the login and registration decisions, and the route guard.

Each page's state is a class whose methods are the page's handlers; the
pure computations beside them (filters, sorts, the page-button list, the
error map, the access decision) are functions, and lemmas state what they
promise. Shared pieces of JavaScript behaviour are modelled once:

- `Seqs`: `Array.prototype.filter` and a stable insertion sort standing in for `Array.prototype.sort`.
- `Text`: `toLowerCase` (ASCII letters), `includes`, `trim`, and string `<`.
- `Numbers`: `Number(s)` / `isNaN(s)`, `parseFloat`, `parseInt` over decimal text (`None` is `NaN`), and the decimal rendering of a natural number.

React effects are folded into the handler that triggers them. A state
setter called with the value already held does not re-run an effect, so
the listing page goes back to page 1 only when a filter value actually
changes. A confirm dialog is a boolean parameter, and the clock is a
parameter too.

Files: `option.dfy`, `seqs.dfy`, `text.dfy`, `numbers.dfy`, `catalog.dfy`,
`user_table.dfy`, `product_form.dfy`, `auth.dfy`, `login.dfy`,
`register.dfy`, `private_route.dfy`, `admin_dashboard.dfy`.

## Model

| member | source | states |
|---|---|---|
| Catalog.View | src/pages/Products.jsx:284-302 | the view holds exactly the products that pass the category and query test, each as often as in the catalog; with a category other than "all" every listed product has that category |
| Catalog.MatchesIgnoresQueryCase | src/pages/Products.jsx:288-290 | the query is compared lower-cased, so its letter case never changes the outcome |
| Catalog.ViewKeepsAllWhenUnfiltered | src/pages/Products.jsx:286-290 | an empty query with category "all" lists every product |
| Catalog.BeforeTotalPreorder | src/pages/Products.jsx:292-299 | every sort key except "featured" gives a total, transitive comparator |
| Catalog.ViewOrdered | src/pages/Products.jsx:293-297 | price ascending for "price-low", descending for "price-high", rating descending for "rating", id descending for "newest" |
| Catalog.ViewSorted | src/pages/Products.jsx:291-300 | for every key but "featured" the view is sorted by the comparator |
| Catalog.TotalPagesBounds | src/pages/Products.jsx:305 | the page count is the least number of pages holding all items, and zero only for no items |
| Catalog.PageSlice | src/pages/Products.jsx:306-308 | a page holds at most itemsPerPage products |
| Catalog.PagesUpToPrefix | src/pages/Products.jsx:306-308 | pages 1 to k together are the first k pages' worth of the list |
| Catalog.PagesRebuildList | src/pages/Products.jsx:305-308 | pages 1 to totalPages together give back the whole filtered list |
| Catalog.PageInRangeNonEmpty | src/pages/Products.jsx:305-308 | a page between 1 and totalPages is never empty |
| Catalog.Run | src/pages/Products.jsx:315-317 | the numbered buttons lo to hi, in order |
| Catalog.GetPageNumbers | src/pages/Products.jsx:311-344 | the pushed buttons are the compact page list |
| Catalog.PageListFew | src/pages/Products.jsx:315-318 | with at most five pages every page is listed in order |
| Catalog.PageListCompact | src/pages/Products.jsx:319-341 | with more than five pages there are six or seven buttons, from page 1 to the last page |
| Catalog.PageListWellFormed | src/pages/Products.jsx:311-344 | numbered buttons increase strictly, name existing pages, and an ellipsis marks every gap |
| Catalog.RunWellFormed | src/pages/Products.jsx:315-317 | a run of consecutive pages is well formed |
| Catalog.ListWellFormed6 | src/pages/Products.jsx:320-331 | the two six-button shapes are well formed |
| Catalog.HeadListWellFormed | src/pages/Products.jsx:320-325 | the list near the first page is well formed |
| Catalog.TailListWellFormed | src/pages/Products.jsx:326-331 | the list near the last page is well formed |
| Catalog.ListWellFormed7 | src/pages/Products.jsx:332-340 | the seven-button shape around a middle page is well formed |
| Catalog.PageListHasCurrent | src/pages/Products.jsx:311-344 | the current page always has a button |
| Catalog.PageListExamples | src/pages/Products.jsx:319-341 | page 1, 10 and 5 of ten pages give the lists [1,2,3,4,…,10], [1,…,7,8,9,10] and [1,…,4,5,6,…,10] |
| Catalog.PageButtonsNavigate | src/pages/Products.jsx:346-348 | clicking a numbered button always moves to its page; an ellipsis does nothing |
| Catalog.CatalogPage.CurrentProducts | src/pages/Products.jsx:306-308 | the shown products are at most a page, and never empty while the filtered list is not |
| Catalog.CatalogPage.constructor | src/pages/Products.jsx:33-43 | empty query, category "all", sort "featured", page 1, 8 per page |
| Catalog.CatalogPage.SetSearchQuery | src/pages/Products.jsx:280-282 | a changed query sets page 1; an unchanged one keeps the page |
| Catalog.CatalogPage.SetCategory | src/pages/Products.jsx:280-282 | a changed category sets page 1; an unchanged one keeps the page |
| Catalog.CatalogPage.SetSortBy | src/pages/Products.jsx:280-282 | a changed sort key sets page 1; an unchanged one keeps the page |
| Catalog.CatalogPage.ClearFilters | src/pages/Products.jsx:550-553 | empty query and category "all", page 1 when either changed |
| Catalog.CatalogPage.SetItemsPerPage | src/pages/Products.jsx:570-574 | the new page size and page 1 |
| Catalog.CatalogPage.HandlePageChange | src/pages/Products.jsx:346-350 | moves to the clicked page when it is a number between 1 and totalPages; otherwise nothing changes |
| UserTable.FilteredUsers | src/components/Admin/UserTable.jsx:57-87 | exactly the users matching query, role and status, each as often as in the list |
| UserTable.BeforeTotalPreorder | src/components/Admin/UserTable.jsx:69-87 | the user comparator is total and transitive in both directions |
| UserTable.FilteredUsersOrdered | src/components/Admin/UserTable.jsx:69-87 | ascending or descending by the sort field, with name and email compared lower-cased |
| UserTable.NextSort | src/components/Admin/UserTable.jsx:89-96 | clicking the current field flips the direction; another field starts ascending |
| UserTable.NextSortTwice | src/components/Admin/UserTable.jsx:89-96 | clicking the same header twice restores the direction |
| UserTable.Toggle | src/components/Admin/UserTable.jsx:106-112 | the id's membership flips and no other id changes; a new id goes at the end |
| UserTable.ToggleTwice | src/components/Admin/UserTable.jsx:106-112 | toggling twice restores the selection's members |
| UserTable.Ids | src/components/Admin/UserTable.jsx:100 | the ids of the visible users, in order |
| UserTable.SelectAll | src/components/Admin/UserTable.jsx:98-104 | checking selects the visible ids in order; unchecking clears the selection |
| UserTable.SelectAllBox | src/components/Admin/UserTable.jsx:298 | after select-all the box is checked exactly when some user is visible; after clearing it is unchecked |
| UserTable.SetStatus | src/components/Admin/UserTable.jsx:123-138 | selected users get the status, all other fields and users unchanged, length and order kept |
| UserTable.RemoveSelected | src/components/Admin/UserTable.jsx:116-122 | exactly the selected users are removed, the rest kept in order |
| UserTable.Bulk | src/components/Admin/UserTable.jsx:114-140 | an unconfirmed delete changes nothing; every other action clears the selection |
| UserTable.UserTableView.constructor | src/components/Admin/UserTable.jsx:20-26 | no filters, sorted by creation date descending, nothing selected |
| UserTable.UserTableView.SetFilters | src/components/Admin/UserTable.jsx:241-265 | the three filter inputs change only the filters |
| UserTable.UserTableView.HandleSort | src/components/Admin/UserTable.jsx:89-96 | the new field and direction are the next sort |
| UserTable.UserTableView.HandleSelectAll | src/components/Admin/UserTable.jsx:98-104 | the selection becomes the select-all result over the visible users |
| UserTable.UserTableView.HandleSelectUser | src/components/Admin/UserTable.jsx:106-112 | the selection is toggled at the id |
| UserTable.UserTableView.HandleBulkAction | src/components/Admin/UserTable.jsx:114-140 | users and selection become the bulk result |
| ProductForm.ReadDetermines | src/components/Admin/ProductForm.jsx:7-21 | a form is determined by the values of its eleven inputs |
| ProductForm.Set | src/components/Admin/ProductForm.jsx:82-99 | writing an input changes that input only; the checkbox takes `checked`, the others `value` |
| ProductForm.Changed | src/components/Admin/ProductForm.jsx:73-99 | a change writes its input; the brand is cleared exactly when the category changes to a new non-empty value |
| ProductForm.CategoryChangeClearsBrand | src/components/Admin/ProductForm.jsx:73-80 | a new non-empty category clears the brand; the same category leaves the form as it was |
| ProductForm.ClearError | src/components/Admin/ProductForm.jsx:101-104 | a present error for the edited input is blanked; the keys and other errors stay |
| ProductForm.Message | src/components/Admin/ProductForm.jsx:127-137 | every rule has a non-empty message |
| ProductForm.Errors | src/components/Admin/ProductForm.jsx:124-138 | every recorded error carries a message |
| ProductForm.AmongStep | src/components/Admin/ProductForm.jsx:127-137 | each rule adds its message exactly when it is broken |
| ProductForm.BuildErrors | src/components/Admin/ProductForm.jsx:125-137 | the error map built rule by rule holds exactly the broken rules, none skipped |
| ProductForm.NameRule | src/components/Admin/ProductForm.jsx:127 | a name error exactly when the trimmed name is empty |
| ProductForm.DescriptionRule | src/components/Admin/ProductForm.jsx:128 | a description error exactly when the trimmed description is empty |
| ProductForm.CategoryRule | src/components/Admin/ProductForm.jsx:132 | a category error exactly when the category is empty |
| ProductForm.BrandRule | src/components/Admin/ProductForm.jsx:136 | a brand error exactly when the brand is empty and the category is not "other" |
| ProductForm.ImageRule | src/components/Admin/ProductForm.jsx:137 | an image error exactly when the image URL is empty |
| ProductForm.PriceRule | src/components/Admin/ProductForm.jsx:129-131 | a price error exactly when the price is empty, not a number or not above zero |
| ProductForm.StockRule | src/components/Admin/ProductForm.jsx:133-135 | a stock error exactly when the stock is empty, not a number or below zero |
| ProductForm.AmongEmpty | src/components/Admin/ProductForm.jsx:124-140 | no error is recorded exactly when no rule is broken |
| ProductForm.ErrorsEmptyIffAcceptable | src/components/Admin/ProductForm.jsx:124-140 | the error map is empty exactly when the form is acceptable |
| ProductForm.AcceptableIffRulesHold | src/components/Admin/ProductForm.jsx:127-137 | acceptable means every one of the seven rules holds |
| ProductForm.ErrorsAreLocal | src/components/Admin/ProductForm.jsx:82-99 | editing one input changes no other input's verdict |
| ProductForm.EmptyFormErrors | src/components/Admin/ProductForm.jsx:7-21 | the empty form breaks all seven rules |
| ProductForm.AllRulesBroken | src/components/Admin/ProductForm.jsx:127-137 | when every rule is broken every key is recorded |
| ProductForm.ZeroPriceRefused | src/components/Admin/ProductForm.jsx:129-131 | a price of "0" is refused |
| ProductForm.OtherNeedsNoBrand | src/components/Admin/ProductForm.jsx:136 | category "other" needs no brand |
| ProductForm.NewCategoryNeedsBrand | src/components/Admin/ProductForm.jsx:73-80 | a new category other than "other" clears the brand, so a brand error follows |
| ProductForm.AvailableBrands | src/components/Admin/ProductForm.jsx:162-165 | no brands without a category; the category's list when it has one; otherwise the "other" list |
| ProductForm.CategoriesOfferBrands | src/components/Admin/ProductForm.jsx:26-47 | every offered category has brands; the three without a list fall back to the "other" list |
| ProductForm.ChosenBrandSatisfiesRule | src/components/Admin/ProductForm.jsx:136 | picking an offered brand or "Other" satisfies the brand rule |
| ProductForm.Normalize | src/components/Admin/ProductForm.jsx:149-156 | the rating is the product's non-zero rating, else 4.0, and never zero |
| ProductForm.NormalizeAcceptable | src/components/Admin/ProductForm.jsx:149-156 | for an acceptable form the parsed price is the validated positive number; the stock is NaN exactly when its text has a decimal point before any digit (a value below one), and otherwise it is its integer part, when parseInt reads it; image is the image URL |
| ProductForm.FractionStockSubmittedAsNaN | src/components/Admin/ProductForm.jsx:133-152 | a stock of ".5" passes the stock rule but is submitted as NaN |
| ProductForm.ProductFormState.constructor | src/components/Admin/ProductForm.jsx:7-24 | the empty form, no errors, no preview |
| ProductForm.ProductFormState.HandleChange | src/components/Admin/ProductForm.jsx:73-105 | the form becomes the changed form and that input's error is blanked |
| ProductForm.ProductFormState.HandleImageUrl | src/components/Admin/ProductForm.jsx:428-433 | the URL is stored, and previewed when non-empty |
| ProductForm.ProductFormState.RemoveImage | src/components/Admin/ProductForm.jsx:383-386 | the URL and the preview are cleared |
| ProductForm.ProductFormState.ValidateForm | src/components/Admin/ProductForm.jsx:124-141 | the errors become the broken rules' messages, and the result is true exactly when the form is acceptable |
| ProductForm.ProductFormState.HandleSubmit | src/components/Admin/ProductForm.jsx:143-160 | a record is handed on exactly when the form is acceptable, and it is the normalized form |
| Auth.Cleared | src/context/AuthContext.jsx:18-23 | both session keys are gone and every other stored key is kept |
| Auth.ClearedIdempotent | src/context/AuthContext.jsx:18-23 | clearing twice is clearing once |
| Auth.AppendTwice | src/context/AuthContext.jsx:24-28 | adding a product twice keeps two more copies and the earlier cart |
| Auth.AuthProvider.constructor | src/context/AuthContext.jsx:8-13 | the stored user and cart are restored; well-formed storage gives a synced session |
| Auth.AuthProvider.Login | src/context/AuthContext.jsx:14-17 | the user is set and stored; the cart is untouched; sync is kept |
| Auth.AuthProvider.Logout | src/context/AuthContext.jsx:18-23 | signed out with an empty cart and both keys removed |
| Auth.AuthProvider.AddToCart | src/context/AuthContext.jsx:24-28 | the product is appended and the new cart stored; sync is kept |
| Auth.LogoutTwice | src/context/AuthContext.jsx:18-23 | signing out twice leaves the state of signing out once |
| Login.Decide | src/pages/Login.jsx:20-38 | a sign-in exactly when both fields are non-empty, under the typed email |
| Login.DecideRoles | src/pages/Login.jsx:21-38 | the admin pair gives user 1 with role "admin" to "/admin"; other filled pairs give user 2 with role "user" to "/"; an empty field is refused with "Invalid credentials" |
| Login.LoginPage.constructor | src/pages/Login.jsx:8-10 | empty fields, no error, not loading |
| Login.LoginPage.HandleSubmit | src/pages/Login.jsx:14-42 | signs in and navigates per the decision, or shows its error; loading ends false |
| Register.Decide | src/pages/Register.jsx:24-37 | a sign-in exactly when the passwords match, as a "user" with the clock as id; otherwise the mismatch message |
| Register.NeverAdmin | src/pages/Register.jsx:32-37 | registration never yields role "admin" |
| Register.RegisterPage.constructor | src/pages/Register.jsx:8-15 | empty fields, no error, not loading |
| Register.RegisterPage.HandleSubmit | src/pages/Register.jsx:19-41 | signs in and navigates home per the decision, or shows the mismatch; loading ends false |
| PrivateRoute.Access | src/components/PrivateRoute.jsx:3-12 | no user goes to "/login"; a non-admin on an admin route goes to "/"; otherwise the children render |
| PrivateRoute.AccessGranted | src/components/PrivateRoute.jsx:5-11 | the children render exactly when a user is present and the route is open or the user is an admin |
| PrivateRoute.RegisteredUsersStayOut | src/components/PrivateRoute.jsx:8-11 | a registered user is sent home from admin routes but sees others; the admin pair opens admin routes |
| AdminDashboard.ParseFloatScalar | src/pages/AdminDashboard.jsx:259 | parsing never leaves text: it yields the number parseFloat reads, or NaN |
| AdminDashboard.Truncate | src/pages/AdminDashboard.jsx:260 | the integer part, rounding toward zero |
| AdminDashboard.ParseIntScalar | src/pages/AdminDashboard.jsx:260 | parsing never leaves text: it yields a whole number parseInt reads, or NaN |
| AdminDashboard.WithId | src/pages/AdminDashboard.jsx:248-252 | the edited record is the form's fields unparsed, with the edited id |
| AdminDashboard.DraftOf | src/pages/AdminDashboard.jsx:281-292 | the form filled from a product gives back that product when saved with its id |
| AdminDashboard.SkuFor | src/pages/AdminDashboard.jsx:261 | a typed sku is kept; an empty one becomes "SKU-" and the clock's digits |
| AdminDashboard.NewRecord | src/pages/AdminDashboard.jsx:256-262 | the added record has the given id, parsed price and stock, and the filled-in sku |
| AdminDashboard.ReplaceById | src/pages/AdminDashboard.jsx:248-252 | every record with the id becomes the replacement; the others stay in place; length kept |
| AdminDashboard.EditKeepsIds | src/pages/AdminDashboard.jsx:248-252 | an edit keeps every record's id |
| AdminDashboard.EditUnchangedIsNoOp | src/pages/AdminDashboard.jsx:246-253 | saving an unchanged edit leaves the list as it was when the id is not shared |
| AdminDashboard.EditKeepsText | src/pages/AdminDashboard.jsx:248-252 | an edited price typed as text is stored as text |
| AdminDashboard.RemoveById | src/pages/AdminDashboard.jsx:298 | exactly the records with the id are removed, the rest kept |
| AdminDashboard.NewIdMayRepeat | src/pages/AdminDashboard.jsx:258 | after a delete a new product can get an id already in the list |
| AdminDashboard.RemoveOrderById | src/pages/AdminDashboard.jsx:307 | exactly the orders with the id are removed, the rest kept |
| AdminDashboard.SetOrderStatus | src/pages/AdminDashboard.jsx:355-359 | only the status of the orders with the id changes; length, order and other fields kept |
| AdminDashboard.SetOrderStatusIdempotent | src/pages/AdminDashboard.jsx:355-359 | setting the same status twice is setting it once |
| AdminDashboard.FilterProducts | src/pages/AdminDashboard.jsx:332-345 | exactly the products whose name, description or sku contains the search term, ignoring case, in the category or any for "all" |
| AdminDashboard.NoFilterKeepsAll | src/pages/AdminDashboard.jsx:332-345 | an empty search with category "all" keeps the list as it is |
| AdminDashboard.FilterOrders | src/pages/AdminDashboard.jsx:365-367 | all orders for "all", otherwise exactly the orders with that status |
| AdminDashboard.ParseFloatSample | src/pages/AdminDashboard.jsx:259 | the text "19.99" parses to 19.99 |
| AdminDashboard.AddedRecordIsParsed | src/pages/AdminDashboard.jsx:259-260 | added price and stock are never text; "19.99" reads 19.99 and an empty stock is NaN |
| AdminDashboard.Dashboard.constructor | src/pages/AdminDashboard.jsx:18-44 | the loaded data, no filters, no product being edited, the form at its defaults and closed |
| AdminDashboard.Dashboard.HandleAddProduct | src/pages/AdminDashboard.jsx:243-279 | editing replaces the records with the edited id and keeps the counters; adding appends one record with id length + 1 and counts it, its price and stock numbers exactly when the typed text parses; the form is reset to its defaults and closed; the message names which happened |
| AdminDashboard.Dashboard.HandleEditProduct | src/pages/AdminDashboard.jsx:281-293 | the product is being edited, the form holds its fields and is open |
| AdminDashboard.Dashboard.HandleDeleteProduct | src/pages/AdminDashboard.jsx:296-302 | a confirmed delete removes the id's records and decrements the product count; otherwise nothing changes |
| AdminDashboard.Dashboard.HandleDeleteOrder | src/pages/AdminDashboard.jsx:305-311 | a confirmed delete removes the id's orders and decrements the order count; otherwise nothing changes |
| AdminDashboard.Dashboard.HandleUpdateOrderStatus | src/pages/AdminDashboard.jsx:354-361 | the orders become the status update |
| AdminDashboard.Dashboard.HandleClearFilters | src/pages/AdminDashboard.jsx:347-351 | empty search, category "all", order filter "all" |
| AdminDashboard.Typed | src/pages/AdminDashboard.jsx:644-718 | typing sets that input to the text and leaves every other input; price and stock typed in stay text |
| AdminDashboard.Dashboard.SetSearchTerm | src/pages/AdminDashboard.jsx:561 | the search box sets the search term only |
| AdminDashboard.Dashboard.SetSelectedCategory | src/pages/AdminDashboard.jsx:599 | the category selector sets the category only |
| AdminDashboard.Dashboard.SetOrderFilter | src/pages/AdminDashboard.jsx:860 | the status selector sets the order filter only |
| AdminDashboard.Dashboard.SetDraftText | src/pages/AdminDashboard.jsx:644-718 | the form becomes the typed form, and text-only price and stock stay text |
| AdminDashboard.Dashboard.OpenForm | src/pages/AdminDashboard.jsx:573 | the add button opens the form as it stands |
| AdminDashboard.Dashboard.CancelForm | src/pages/AdminDashboard.jsx:741-753 | cancelling closes the form, stops editing and resets the form to its defaults |
| AdminDashboard.Dashboard.FilteredProducts | src/pages/AdminDashboard.jsx:364 | the shown products are the ones the filter admits |
| AdminDashboard.Dashboard.FilteredOrders | src/pages/AdminDashboard.jsx:365-367 | the shown orders are all of them or those with the chosen status |
| Text.TrimEmpty | src/components/Admin/ProductForm.jsx:127-128 | trimming gives the empty string exactly when every character is white space |
| Numbers.NumberAgreesWithParseFloat | src/components/Admin/ProductForm.jsx:129-131 | text that `Number` accepts reads the same under `parseFloat` |
| Numbers.ParseIntTruncates | src/components/Admin/ProductForm.jsx:150-152 | when parseInt reads a number, it is the number parseFloat reads rounded toward zero |
| Numbers.ParseIntNeedsWholeDigits | src/components/Admin/ProductForm.jsx:150-152 | where parseFloat reads a number, parseInt gives NaN exactly when a decimal point precedes every digit, and the number read then lies strictly between -1 and 1 |
| Numbers.ParseIntOfFraction | src/components/Admin/ProductForm.jsx:150-152 | ".5" reads 0.5 under parseFloat and NaN under parseInt |
| Numbers.NumberShow | src/pages/AdminDashboard.jsx:261 | a rendered natural number reads back as itself |

## Left out

- Fetching and assembling the listing catalog, the dashboard's mock data and the user table's random users: the classes start from the data they are given.
- Exports (PDF, spreadsheet, CSV), alerts, `window.scrollTo`, `setTimeout` delays and navigation: they are side effects in foreign code; navigation is returned as a path.
- Storage holds values, not JSON text; a stored value of the wrong shape is ignored rather than parsed.
- Text.Lower: lower-cases ASCII letters only, not the rest of Unicode.
- Text.LexLess: string `<` and `localeCompare` are both code-point order here, which differs from JavaScript's code-unit order for characters outside the Basic Multilingual Plane; lone surrogates are not representable; locale collation is not modelled.
- Numbers.Number: decimal notation only; no surrounding white space, exponent, hexadecimal or `Infinity`.
- Numbers.ParseFloat, Numbers.ParseInt: decimal notation only, as for `Number`: leading white space is not skipped (" 5" reads NaN, JavaScript reads 5), and `parseFloat` stops before an exponent ("1e3" reads 1, JavaScript reads 1000); `Infinity` is not read.
- AdminDashboard.ParseFloatScalar: inherits the `parseFloat` gap above, so a price typed as "1e3" (which a number input accepts) is recorded as 1 where the page records 1000.
- Seqs.Sort: the engine's sort is replaced by a stable insertion sort; for the "featured" comparator, which is not consistent, only the permutation is stated.
- AdminDashboard.ParseIntScalar: a number is truncated directly rather than rendered to text and read back.
- The browser's own form validation: the `required`, `min="0"` and `step="0.01"` attributes of the dashboard form (src/pages/AdminDashboard.jsx:646-703) and the product form's number inputs (src/components/Admin/ProductForm.jsx:233-257) stop a submission before the handler runs. The model leaves this out: AdminDashboard.Dashboard.HandleAddProduct and ProductForm.ProductFormState.HandleSubmit are callable on any form contents. So the model includes cases the page cannot reach: the sku made from the clock, and a NaN or negative price or stock on the dashboard's add path.
- The product form's file upload (FileReader) and the effect that loads an existing product into the form.
- The dashboard's analytics/report toggles and filter-panel toggle, and the listing page's view-mode and add-to-cart buttons: they only show or hide panels.
- Presentational components and pages with no decisions in them.
