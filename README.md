# Product catalog screens — a Dafny model

This project models the client-side state logic of two screens of a product
catalog web front end:

- **The catalog admin screen** (`src/components/sales/ProductList.tsx`). It
  loads the product list and the active categories. It filters the table by a
  case-insensitive search on product name or code. It runs the add, edit and
  delete dialogs, and the image upload and removal for the add and edit forms.
  It is modelled as the class `Catalog.CatalogScreen`. The class has one field
  per piece of component state and one method per handler. `Valid()` is the
  invariant that holds between handler steps:
  - the visible list is a subsequence of the loaded list;
  - only active categories are kept;
  - each draft's `images` equals its image-URL list;
  - no submission, deletion or upload is in flight.
- **The category browse page** (`src/pages/collections/product-category.tsx`).
  It loads every category and resolves the one named by the URL parameter.
  A category matches when the decimal form of its id equals the parameter
  exactly. The page then loads that category's products and derives the
  sidebar and the header. It is modelled as the class `Browse.CategoryPage`
  with its loader `LoadData`, plus pure functions for the derived view.
  `NatToString`/`IdString` give the decimal form of an id. `DecimalRoundTrip`
  reads the form of a natural number back, and `IdStringInjective` proves
  the form injective over all ids, negative ones included. So "found" and "not
  found" are decided exactly: "7" finds id 7 only, and "07" finds nothing.

The network is not modelled. Each backend call becomes a parameter that says
how it ended:
- the catalog screen uses `Fetch<T>`: no stored token, failure (non-2xx status
  or a thrown error), or success with the parsed body;
- the browse page's two service functions use `Outcome<T>`: threw, or returned
  a value.

A handler that sends a mutating request returns that request (`Request`), so
the contracts say which call was made, with which id and body, or that none
was made. Each asynchronous handler is one atomic step.

Some successful mutations start a product reload without awaiting it. That
reload is modelled by its synchronous prefix, `IssueReload`: `isLoading`
becomes true and `reloadsIssued` grows by one. The reload's result is a later
`FetchProducts` step. The search effect is the separate step `FilterEffect`.
React runs it after any commit that changed `products` or `searchTerm`.

In these places the model follows code that a reader might expect to behave
otherwise:
- Cancelling the delete dialog (`ProductList.tsx:619`) only closes it. The
  target stays set; it is not cleared on cancel (`CloseDeleteDialog`).
- `loadData` never resets `currentCategory` when the parameter is absent, or
  when the category fetch throws. The header keeps the previous category's
  title in those cases, and `LoadData` states this.
- If the category list's body is not an array, its `filter` call throws. The
  throw is caught, so the list is kept, just as on a failed request.

## Model

| member | source | states |
|---|---|---|
| `Common.Filter` | src/components/sales/ProductList.tsx:108-113 | `filter` yields a subsequence of its input. Every kept element satisfies the predicate, and no satisfying element is dropped. Each element's multiplicity is kept when it satisfies the predicate and is zero otherwise. |
| `Catalog.Lower` | src/components/sales/ProductList.tsx:110-111 | Lowering keeps the length. Each ASCII upper-case letter becomes its lower-case letter (code point + 32), and every other character is unchanged. |
| `Catalog.FilterProducts` | src/components/sales/ProductList.tsx:108-112 | The visible list is the order-preserving subsequence of products whose lowered name or code includes the lowered term, with multiplicities kept. |
| `Catalog.EmptySearchShowsAll` | src/components/sales/ProductList.tsx:106-115 | With an empty search term the visible list equals the product list. |
| `Catalog.SearchDependsOnLoweredTerm` | src/components/sales/ProductList.tsx:110-111 | Two search terms with the same lower-case form show the same products. |
| `Catalog.SearchCaseExample` | src/components/sales/ProductList.tsx:110-111 | Searching "SU01" and "su01" shows the same products. |
| `Catalog.SearchIgnoresTermCase` | src/components/sales/ProductList.tsx:110-111 | Searching for a term and for its lower-case form shows the same products. |
| `Catalog.SearchExample` | src/components/sales/ProductList.tsx:108-112 | Searching "su" among milk (code SU01) and cake (code BA01) keeps only the milk. |
| `Catalog.ValidProducts` | src/components/sales/ProductList.tsx:148-150 | The loaded list is no longer than the array. Every well-shaped element's product is in it: a non-null object with `productId` and `productName`. |
| `Catalog.ValidProductsIsFilter` | src/components/sales/ProductList.tsx:148-150 | The loaded list is exactly the well-shaped elements of the array, read as products: same length, same order, repeats kept. |
| `Catalog.ValidProductsSound` | src/components/sales/ProductList.tsx:148-150 | Every loaded product comes from a well-shaped element of the array. |
| `Catalog.ValidProductsKeepsWellShaped` | src/components/sales/ProductList.tsx:148-153 | An array of well-shaped elements loads completely, in array order. |
| `Catalog.ValidProductsDropsMalformed` | src/components/sales/ProductList.tsx:148-153 | An array with no well-shaped element loads as the empty list. |
| `Catalog.ActiveCategories` | src/components/sales/ProductList.tsx:180 | The kept categories are exactly the active ones, in response order, with multiplicities kept. |
| `Catalog.UploadedUrl` | src/components/sales/ProductList.tsx:293-297 | The upload URL is `url`, else `imageUrl`, else `path`, taking the first one that is present and non-empty. There is none exactly when all three are absent or empty. |
| `Catalog.Without` | src/components/sales/ProductList.tsx:326-327 | Removing index i shortens the list by one. Entries before i stay in place and entries after i move down one slot. |
| `Catalog.RemoveUndoesAppend` | src/components/sales/ProductList.tsx:299-313 | Removing the URL just appended restores the previous list. |
| `Catalog.WithoutMultiset` | src/components/sales/ProductList.tsx:326-327 | Removal deletes exactly the entry at the index and keeps every other entry. |
| `Catalog.SpliceOut` | src/components/sales/ProductList.tsx:326-327 | Copying the list into an array and splicing index i out in place yields the list without entry i. |
| `Catalog.CatalogScreen.constructor` | src/components/sales/ProductList.tsx:59-99 | The initial state: empty lists, loading, empty search, all dialogs closed. Both drafts take the defaults (expiration 30, category 0, tax 1, no images). |
| `Catalog.CatalogScreen.SetSearchTerm` | src/components/sales/ProductList.tsx:483 | The search box sets the term and nothing else. |
| `Catalog.CatalogScreen.FilterEffect` | src/components/sales/ProductList.tsx:106-115 | With a non-empty product list, the visible list becomes the filtered list for the current term. With an empty list it is left as it was. The invariant is kept. |
| `Catalog.CatalogScreen.FetchProducts` | src/components/sales/ProductList.tsx:117-162 | No token: both lists are unchanged. Failure or a non-array body: both lists become empty. An array: both lists become its well-shaped products. `isLoading` ends false on every path. |
| `Catalog.CatalogScreen.FetchCategories` | src/components/sales/ProductList.tsx:164-185 | On success the categories become the active subset of the response. No token, failure, or a non-array body leaves the categories unchanged. |
| `Catalog.CatalogScreen.VisibleAreLoaded` | src/components/sales/ProductList.tsx:106-115 | Every product in the visible list is a loaded product. |
| `Catalog.CatalogScreen.Mount` | src/components/sales/ProductList.tsx:101-104 | Mounting loads the products and then the categories. No token keeps both product lists. Failure or a non-array body empties them. An array loads its well-shaped products into both. The categories become the active subset of a successful array response, else stay unchanged. |
| `Catalog.CatalogScreen.ViewProductDetail` | src/components/sales/ProductList.tsx:187-190 | Viewing selects the product and opens the detail dialog. |
| `Catalog.CatalogScreen.CloseViewDialog` | src/components/sales/ProductList.tsx:584 | Closing the detail dialog changes only its open flag. |
| `Catalog.CatalogScreen.EditProduct` | src/components/sales/ProductList.tsx:192-206 | Editing selects the product and copies its editable fields into the edit draft. The edit URL list becomes the product's images, and the edit dialog opens. |
| `Catalog.CatalogScreen.EditFromView` | src/components/sales/ProductList.tsx:585-588 | The detail dialog's edit button closes that dialog and edits the shown product. |
| `Catalog.CatalogScreen.OpenAddDialog` | src/components/sales/ProductList.tsx:488 | The add button opens the add dialog. |
| `Catalog.CatalogScreen.CloseAddDialog` | src/components/sales/ProductList.tsx:495 | Cancelling the add dialog closes it and keeps the draft. |
| `Catalog.CatalogScreen.CloseEditDialog` | src/components/sales/ProductList.tsx:598 | Cancelling the edit dialog closes it and keeps the draft. |
| `Catalog.CatalogScreen.StageImage` | src/components/sales/ProductList.tsx:250-254 | Choosing a file stages it. Choosing none keeps the staged file. |
| `Catalog.CatalogScreen.UploadImage` | src/components/sales/ProductList.tsx:264-323 | With no staged file, nothing is sent or changed. With a returned URL, it is appended to the edit or the add URL list (chosen by `isEdit`), that draft's images equal the new list, the other list is untouched, and the staged file is cleared. No token, a failure or no URL changes nothing. `uploadingImage` ends false. |
| `Catalog.CatalogScreen.RemoveNewImage` | src/components/sales/ProductList.tsx:325-333 | The add list loses exactly entry i, the add draft's images follow, and the edit list is untouched. |
| `Catalog.CatalogScreen.RemoveEditImage` | src/components/sales/ProductList.tsx:335-343 | The edit list loses exactly entry i, the edit draft's images follow, and the add list is untouched. |
| `Catalog.CatalogScreen.IssueReload` | src/components/sales/ProductList.tsx:118 | Starting a reload sets `isLoading` and counts the reload. |
| `Catalog.CatalogScreen.AddProduct` | src/components/sales/ProductList.tsx:345-393 | The whole add draft is posted unless the token is missing. On success the draft resets to its defaults, the URL list empties, the dialog closes and a reload starts. Otherwise all of these are kept. `isSubmitting` ends false. |
| `Catalog.CatalogScreen.UpdateProduct` | src/components/sales/ProductList.tsx:395-433 | With no selected product or no token, nothing is sent. Otherwise the edit draft is put to the selected product's id. On success the dialog closes and a reload starts, and the draft is kept either way. `isSubmitting` ends false. |
| `Catalog.CatalogScreen.DeleteProduct` | src/components/sales/ProductList.tsx:435-438 | Deleting sets the target and opens the confirmation. |
| `Catalog.CatalogScreen.CloseDeleteDialog` | src/components/sales/ProductList.tsx:619 | Cancelling the confirmation closes it and keeps the target. |
| `Catalog.CatalogScreen.ConfirmDelete` | src/components/sales/ProductList.tsx:440-474 | With no target or no token, nothing is sent. Otherwise a delete is sent for the target's id. On success the dialog closes, the target is cleared and a reload starts. On failure the dialog and the target are kept. `isDeleting` ends false. |
| `Browse.NatToString` | src/pages/collections/product-category.tsx:34 | The decimal form is a non-empty string of digits with no leading zero. |
| `Browse.DecimalRoundTrip` | src/pages/collections/product-category.tsx:34 | Reading the decimal form back gives the number. |
| `Browse.IdString` | src/pages/collections/product-category.tsx:34 | An id's string form is non-empty and starts with '-' exactly when the id is negative. |
| `Browse.IdStringInjective` | src/pages/collections/product-category.tsx:34 | Different ids have different string forms. |
| `Browse.LeadingZeroIsNoId` | src/pages/collections/product-category.tsx:34 | A parameter with a leading zero and more characters names no id. |
| `Browse.FindCategory` | src/pages/collections/product-category.tsx:34 | `find` returns the first category whose id string equals the parameter. It returns nothing exactly when none does. |
| `Browse.FindById` | src/pages/collections/product-category.tsx:33-35 | Looking up an id's string finds a category exactly when one has that id, and the found category has that id. |
| `Browse.UnknownIdNotFound` | src/pages/collections/product-category.tsx:34-46 | The parameter "7" with no category of id 7 resolves to nothing. |
| `Browse.Insert` | src/pages/collections/product-category.tsx:94 | Insertion adds exactly the one category. |
| `Browse.InsertSorted` | src/pages/collections/product-category.tsx:94 | Insertion into a list sorted by `sortOrder` keeps it sorted. |
| `Browse.SortByOrder` | src/pages/collections/product-category.tsx:94 | The sort yields a permutation of its input, ascending by `sortOrder`. |
| `Browse.InsertKeepsTies` | src/pages/collections/product-category.tsx:94 | Insertion puts a category before every existing category with the same sort order. |
| `Browse.SortKeepsTies` | src/pages/collections/product-category.tsx:94 | The sort is stable: categories with equal sort order keep their relative order. |
| `Browse.Sidebar` | src/pages/collections/product-category.tsx:92-94 | The sidebar is a permutation of the active categories, ascending by `sortOrder`. |
| `Browse.SidebarListsActive` | src/pages/collections/product-category.tsx:92-93 | Every active category has a sidebar link. |
| `Browse.HighlightedShareId` | src/pages/collections/product-category.tsx:99-101 | All highlighted links carry the same id. |
| `Browse.ResolvedIsHighlighted` | src/pages/collections/product-category.tsx:99-101 | The resolved category's link is highlighted, and every highlighted link has its id. |
| `Browse.Title` | src/pages/collections/product-category.tsx:68 | The title is the current category's name. With no current category or an empty name it is "Sản phẩm". |
| `Browse.Description` | src/pages/collections/product-category.tsx:69 | The description is the current category's notes, with the default text as the fallback. |
| `Browse.CategoryPage.constructor` | src/pages/collections/product-category.tsx:15-19 | The initial state: no categories, no current category, no products, loading, no error. |
| `Browse.CategoryPage.LoadData` | src/pages/collections/product-category.tsx:22-59 | `loading` ends false on every path. If the category fetch throws, the error is the generic message and nothing else changes; otherwise the categories are the fetched list. With no parameter, the products are empty and there is no error. With an unknown parameter, the current category is null, the error is "not found", the products are empty and no product fetch is made. With a known one, its products are fetched for its id, and the error is the "no products" notice exactly when that list is empty. |

## Left out

- HTTP transport, `FormData`, headers, URLs, `localStorage`, `alert` and `console` are not modelled. Each call is an outcome parameter, and alerts and logs are not recorded.
- The implementations of `fetchProductCategories` and `fetchProductsByCategory` are not part of this model. They are inputs that either throw or return a list.
- `formatDate` (`ProductList.tsx:208-218`) is left out because it depends on `Date` parsing and `vi-VN` locale formatting.
- The input and select change handlers (`ProductList.tsx:220-248`) are left out. They rely on `Number.parseInt` and can store `NaN` as a category id, which integers cannot represent. The model's drafts are arbitrary values.
- The dialogs also receive the raw draft setters (`setProduct`, `ProductList.tsx:498`, `601`). What the dialog components do with them is not shown, so it is not modelled.
- Lower: handles ASCII letters only, because Unicode `toLowerCase` (Vietnamese letters with diacritics) is not modelled. Other characters are left as they are.
- `RemoveNewImage`, `RemoveEditImage` and `SpliceOut` require 0 ≤ i < length. JavaScript's `splice` also accepts negative or out-of-range indices. The dialogs that call these handlers (wired at `ProductList.tsx:508` and `ProductList.tsx:611`) are not part of this model, so the model assumes they pass only the index of an image in the list.
- Asynchronous interleaving is not modelled. Overlapping reloads and the last-write-wins race when the URL parameter changes mid-load are out of scope. Each handler is one atomic step.
- Response fields are not checked for missing values: missing `description` or `images` (the `||` fallbacks in `handleEditProduct`), optional `price`/`status`, and a well-shaped element that lacks `productCode`. Product and category fields always hold values of their declared types.
- Non-integer ids and sort orders are not modelled: ids are integers and `toString` is their decimal form. A `NaN` from the sort comparator is not modelled either.
- Rendering is not modelled: JSX, skeletons, the empty-grid notice, icons and dialog components are UI only.
