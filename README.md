# D'Elegance storefront core, modelled in Dafny

This project models the storefront's client-side state and catalog logic. Each
piece has its own module:

- **Cart state engine** (`CartStore`, record types in `CartTypes`).
  - The list of line items with its four transitions: `addItem` merges into an existing id, `removeItem`, `setQty` (a quantity of 0 or less removes the line) and `clear`.
  - The two derived totals, `itemCount` and the rounded `subtotal`.
  - The load rule for the persisted cart.
  - `Store`, the provider's state, as a class whose methods replace its `items` field.
- **Money** (`Money`, with decimal digit strings in `Decimal`).
  - `round2` on real numbers.
  - `formatXCG` on whole-cent amounts or NaN, with a parser that reads the printed figure back.
- **Catalog resolution** (`Products`): the in-memory part of `getActiveProducts`, after the database rows have arrived.
  - Effective price.
  - The `under-25` pseudo-category.
  - An unknown category gives an empty result.
  - The price re-sorts.
  - The first image per product, as a method with a loop filling a map.
  - The projection with its `Sale` badge.
- **Checkout draft store** (`CheckoutStore`): load, save and clear over one browser storage entry, as a class over that entry.
- **Quantity stepper** (`QtyStepper`): the clamped steps and the disabled flags.
- **Cart drawer** (`MiniCartDrawer`): the delivery threshold, the amount remaining, the header label and the count badge.
- **Checkout page** (`CheckoutPage`): the name, notes and delivery-method form state as a class.
  - Hydration from the draft.
  - Autosave after every change.
  - Delivery gated on the cart subtotal.
  - The clear-cart action.
- **Shop controls** (`ShopControls`).
  - `withSort` over a path and its query parameters.
  - The category-chip and sort links.
  - The active-chip rule.

`Wrappers` holds the `Option` type.

The following are parameters of the model:

- The browser storage entry is a value: `Absent`, `Corrupt`, or `Stored` holding the parsed JSON.
- Whether a window exists.
- Whether a storage write or removal throws.
- The clock (`now`).
- The database rows.

Amounts are `real` numbers, not binary floats. Quantities are unbounded integers.

Behaviour of the code that the model keeps as written:

- `loadCart` returns the parsed value whenever `parsed?.items?.length` is truthy (src/lib/cart/cartStore.tsx:27-28). It checks neither that `items` is an array nor anything about its lines. The model covers the entries that are an array of line items. A loaded cart of that kind may still hold duplicate ids or non-positive quantities, so `CartStore.Store.Hydrate` does not promise a valid cart. Other truthy `items` values are listed under "Left out".
- `loadCheckoutDraft` checks only that `updatedAt` is a number. A stored `method` outside `pickup`/`delivery` is returned as it is.
- The autosaved `updatedAt` is whatever the clock gives. Nothing in the code makes it strictly increase from one save to the next.
- `round2` uses `Math.round`, which sends ties toward +∞ for negative inputs too. So `round2(-0.005)` is `0`, not `-0.01` (`Money.Round2TieGoesUp`).
- The `Sale` badge appears for any truthy `sale_price` (src/lib/data/products.ts:104). This includes a sale price equal to, or above, the list price. Only a missing or zero sale price gives no badge.
- `formatXCG` prints the figure first and the currency code after it, as in `12.50 XCG`.

## Model

| member | source | states |
|---|---|---|
| CartTypes.WithQty | src/lib/cart/cartStore.tsx:71 | the new line carries every field of the added item unchanged (id, slug, title, price, image, variant label, personalization) and the given quantity |
| CartStore.BumpQty | src/lib/cart/cartStore.tsx:66-68 | the merge keeps the number of lines and each line's id and price in its place, and leaves every line with another id unchanged; the quantity it adds is stated by `AddItemExisting` |
| CartStore.AddItemTo | src/lib/cart/cartStore.tsx:61-72 | `addItem` adds at most one line, and every line already in the cart keeps its id and price in its place; the merge and append cases are `AddItemExisting` and `AddItemNew` |
| CartStore.LoadCart | src/lib/cart/cartStore.tsx:21-32 | the loaded cart is non-empty exactly when there is a window and the entry parses to an object with a non-empty `items`; otherwise it is empty; a non-empty result is the stored items unchanged |
| CartStore.SaveCart | src/lib/cart/cartStore.tsx:34-40 | definition only, no contract: the entry `saveCart` writes holds the items under `items`; `SaveThenLoad` states that it loads back |
| CartStore.SaveThenLoad | src/lib/cart/cartStore.tsx:34-40 | loading what `saveCart` wrote gives back the same items |
| CartStore.AddItemExisting | src/lib/cart/cartStore.tsx:63-69 | adding an id already in a cart with unique ids adds the quantity to that line only; its price, title, slug and image stay those of the original line |
| CartStore.AddItemNew | src/lib/cart/cartStore.tsx:71 | adding a new id appends exactly one line with the given quantity; earlier lines are unchanged and in order |
| CartStore.AddItemValid | src/lib/cart/cartStore.tsx:61-72 | adding a positive quantity keeps ids unique and every quantity positive |
| CartStore.AddTwiceMerges | src/lib/cart/cartStore.tsx:61-72 | adding a new product with quantity 2 and then again with 3 gives one line of quantity 5, with the first call's snapshot |
| CartStore.RemoveItemFrom | src/lib/cart/cartStore.tsx:75 | `removeItem` never lengthens the cart, and no remaining line has the removed id |
| CartStore.RemoveItemKeepsOrder | src/lib/cart/cartStore.tsx:75 | the remaining lines are a subsequence of the cart: each comes from the cart, in the order the cart had them |
| CartStore.RemoveItemMembers | src/lib/cart/cartStore.tsx:74-76 | a line is in the result exactly when it was in the cart and has a different id |
| CartStore.RemoveItemAbsent | src/lib/cart/cartStore.tsx:75 | removing an id that is not in the cart changes nothing |
| CartStore.RemoveItemSplice | src/lib/cart/cartStore.tsx:75 | in a cart with unique ids, removing line k's id leaves the lines before and after k, in order |
| CartStore.RemoveItemValid | src/lib/cart/cartStore.tsx:74-76 | removal keeps ids unique and quantities positive |
| CartStore.RemoveItemTotals | src/lib/cart/cartStore.tsx:74-76 | removing a line lowers the item count by its quantity and the raw sum by its price times quantity |
| CartStore.AssignQty | src/lib/cart/cartStore.tsx:80 | the assignment keeps the number of lines and each line's id and price in its place, and leaves every line with another id unchanged; the quantity set is stated by `SetQtyPositiveAssigns` |
| CartStore.KeepPositive | src/lib/cart/cartStore.tsx:81 | the positive-quantity filter never lengthens the list; which lines it keeps is `KeepPositiveAllPositive` |
| CartStore.KeepPositiveKeepsOrder | src/lib/cart/cartStore.tsx:81 | the lines kept by the filter are a subsequence of its input, in their original order |
| CartStore.SetQtyIn | src/lib/cart/cartStore.tsx:78-81 | `setQty` never lengthens the cart; its cases are the `SetQty` lemmas below |
| CartStore.KeepPositiveAllPositive | src/lib/cart/cartStore.tsx:81 | the positive-quantity filter leaves only positive quantities, and keeps exactly the lines of the input with positive quantity |
| CartStore.KeepPositiveNoop | src/lib/cart/cartStore.tsx:81 | the filter leaves a cart of positive quantities unchanged |
| CartStore.SetQtyAllPositive | src/lib/cart/cartStore.tsx:77-83 | after `setQty` every remaining line has a positive quantity, whatever the cart held |
| CartStore.SetQtyNonPositiveRemoves | src/lib/cart/cartStore.tsx:78-81 | on a cart of positive quantities, a quantity of 0 or less is the same as `removeItem` |
| CartStore.SetQtyPositiveAssigns | src/lib/cart/cartStore.tsx:78-81 | on a cart of positive quantities, a positive quantity keeps every line and sets that quantity on the lines with the id and only there |
| CartStore.SetQtyAbsent | src/lib/cart/cartStore.tsx:78-81 | `setQty` on an absent id leaves a cart of positive quantities unchanged |
| CartStore.SetQtyValid | src/lib/cart/cartStore.tsx:77-83 | `setQty` keeps ids unique and quantities positive |
| CartStore.EmptyCart | src/lib/cart/cartStore.tsx:84 | `clear` gives the empty item list |
| CartStore.ItemCount | src/lib/cart/cartStore.tsx:57 | definition only, no contract: the left fold of the quantities; its properties are `TotalsConcat`, `ItemCountPositive` and the totals lemmas |
| CartStore.LineTotal | src/lib/cart/cartStore.tsx:55 | definition only, no contract: price times quantity; `LineTotalBump` states how it moves with the quantity |
| CartStore.RawSubtotal | src/lib/cart/cartStore.tsx:55 | definition only, no contract: the left fold of the line totals, the sum `round2` is applied to; its properties are `TotalsConcat` and the totals lemmas |
| CartStore.Subtotal | src/lib/cart/cartStore.tsx:54-56 | the subtotal is a whole number of cents within half a cent of the sum of price times quantity |
| CartStore.TotalsConcat | src/lib/cart/cartStore.tsx:54-57 | both folds split over concatenation: the item count and raw sum of `a + b` are those of `a` plus those of `b` |
| CartStore.ItemCountPositive | src/lib/cart/cartStore.tsx:57 | with positive quantities the item count is at least the number of lines, and zero exactly for the empty cart |
| CartStore.AddExistingTotals | src/lib/cart/cartStore.tsx:63-69 | merging into an existing line raises the item count by the quantity and the raw sum by the existing line's price times it |
| CartStore.AddNewTotals | src/lib/cart/cartStore.tsx:71 | appending a new line raises the item count by the quantity and the raw sum by the new price times it |
| CartStore.Store.constructor | src/lib/cart/cartStore.tsx:43 | the provider starts with no items |
| CartStore.Store.Count | src/lib/cart/cartStore.tsx:57 | definition only, no contract: the item count of the current items |
| CartStore.Store.Total | src/lib/cart/cartStore.tsx:54-56 | the subtotal of the current items is a whole number of cents within half a cent of their exact sum |
| CartStore.Store.Hydrate | src/lib/cart/cartStore.tsx:45-47 | on mount the items become what `loadCart` gives for the stored entry |
| CartStore.Store.Persist | src/lib/cart/cartStore.tsx:49-51 | the save effect writes the items so that they load back; a throwing write leaves the entry and is swallowed |
| CartStore.Store.AddItem | src/lib/cart/cartStore.tsx:61-73 | the items become the merged list; a valid cart stays valid for a positive quantity; with unique ids the item count rises by exactly the quantity |
| CartStore.Store.RemoveItem | src/lib/cart/cartStore.tsx:74-76 | the items become the filtered list, holding exactly the old lines with a different id; validity is kept |
| CartStore.Store.SetQty | src/lib/cart/cartStore.tsx:77-83 | the items become the assigned-and-filtered list, all quantities positive; validity is kept |
| CartStore.Store.Clear | src/lib/cart/cartStore.tsx:84 | the items become empty and the item count 0 |
| Money.Round2 | src/lib/money.ts:11-13 | the result is a whole number of cents, within half a cent of the input (strictly above `n - 0.005`, at most `n + 0.005`) |
| Money.Round2Cents | src/lib/money.ts:12 | definition only, no contract: `Math.round(n * 100)` as the floor of `n * 100 + 0.5`; `Round2` states what the rounding gives |
| Money.Round2Characterized | src/lib/money.ts:12 | the rounded value is the only whole-cent value in that half-open window |
| Money.Round2TieGoesUp | src/lib/money.ts:12 | an input exactly halfway between two cents rounds to the upper one, as `Math.round` does |
| Money.Round2Idempotent | src/lib/money.ts:12 | rounding twice is rounding once |
| Money.Round2OfCentsSum | src/lib/money.ts:12 | the sum of two whole-cent amounts is left unchanged by rounding |
| Money.FormatXCG | src/lib/money.ts:1-9 | NaN prints `0.00 XCG`; every output ends in ` XCG` after a figure with a point and exactly two digits after it |
| Money.Fixed2 | src/lib/money.ts:8 | definition only, no contract: `toFixed(2)` on a whole number of cents; `Fixed2Denotes` states that the figure reads back as those cents |
| Money.Fixed2Denotes | src/lib/money.ts:8 | the two-decimal figure for a whole number of cents reads back as that number of cents, signs included |
| Money.FormatXCGDenotes | src/lib/money.ts:8 | the printed amount, read back, is exactly the whole-cent amount formatted |
| Decimal.NatToStringValue | src/lib/money.ts:8 | the decimal digits printed for a natural number denote it |
| Decimal.IntToStringValue | src/components/cart/MiniCartDrawer.tsx:32 | the count printed into the header label, sign included, parses back to itself |
| Products.EffectivePrice | src/lib/data/products.ts:60 | definition only, no contract: `sale_price ?? price ?? 0`, the same expression as at lines 69, 75 and 102; `Under25Members`, `PriceSortsOrdered`, `SaleSortsBySalePrice` and `Project` state how it is used |
| Products.Under25 | src/lib/data/products.ts:58-62 | the under-25 filter never lengthens the list, and every row it keeps has an effective price of at most 25 |
| Products.Under25KeepsOrder | src/lib/data/products.ts:58-62 | the rows kept by the under-25 filter are a subsequence of the fetched rows, in fetched order |
| Products.Under25Members | src/lib/data/products.ts:58-62 | a row survives the under-25 filter exactly when it was fetched and its effective price is at most 25; no row is added or duplicated |
| Products.Insert | src/lib/data/products.ts:67-76 | inserting a row into the sorted prefix adds exactly that row |
| Products.InsertOrdered | src/lib/data/products.ts:67-76 | inserting into a list ordered by effective price keeps it ordered |
| Products.SortByPrice | src/lib/data/products.ts:66-77 | the re-sort is a permutation, ordered by effective price in the chosen direction |
| Products.LookupCategory | src/lib/data/products.ts:28-37 | the lookup misses exactly when no category has the slug; on a hit it returns the id of the first category with that slug |
| Products.NamesCategory | src/lib/data/products.ts:28 | definition only, no contract: the category is non-empty and not `under-25`, so it is looked up |
| Products.CategoryMissing | src/lib/data/products.ts:36-37 | definition only, no contract: the lookup found no row or an empty id, so the result is `[]`; `UnknownCategoryEmpty` and `CatalogProperties` state the effect |
| Products.ResolveRows | src/lib/data/products.ts:21-77 | definition only, no contract: the rows left after the category check, the under-25 filter and the price sorts; the lemmas below state its properties |
| Products.ResolveRowsSubset | src/lib/data/products.ts:57-77 | the rows kept are a sub-multiset of the fetched rows: no row is added or duplicated |
| Products.Under25Exact | src/lib/data/products.ts:57-62 | for `under-25`, whatever the categories, the result holds exactly the fetched rows with effective price at most 25 |
| Products.UnknownCategoryEmpty | src/lib/data/products.ts:36-37 | a slug that names no category gives the empty result, not the whole catalog |
| Products.PriceSortsOrdered | src/lib/data/products.ts:66-77 | `price-asc` output is nondecreasing and `price-desc` output nonincreasing in effective price |
| Products.NewKeepsFetchedOrder | src/lib/data/products.ts:22-77 | with no sort or `new`, and a category that resolves, the fetched rows come back unchanged and in order |
| Products.Under25NewKeepsOrder | src/lib/data/products.ts:57-77 | under `under-25` with no sort or `new`, the result is the under-25 filter of the fetched rows and keeps their fetched order |
| Products.SaleSortsBySalePrice | src/lib/data/products.ts:72-77 | a 30 item on sale at 20 sorts below a 24 item under `price-desc`, and both pass the under-25 rule |
| Products.FirstIndex | src/lib/data/products.ts:91-96 | the index found is the first media row of the product, and none is found exactly when the product has no row |
| Products.FirstUrl | src/lib/data/products.ts:91-96 | a product has no first url exactly when no media row is for it; a url it has is the url of one of its rows |
| Products.FirstIsLowestPosition | src/lib/data/products.ts:86-96 | with rows ordered by position, the first row of a product has the lowest position among its rows |
| Products.FirstImageByProduct | src/lib/data/products.ts:91-96 | the map holds a product exactly when it has a media row, and maps it to the url of its first row |
| Products.Project | src/lib/data/products.ts:98-106 | the output keeps id, slug and title, carries the effective price, the given image and the query category, and has the `Sale` badge exactly when the sale price is present and non-zero |
| Products.ZeroSalePriceNoBadge | src/lib/data/products.ts:102-104 | a sale price of 0 gives price 0 and no badge |
| Products.Projected | src/lib/data/products.ts:98-106 | projection gives one record per row, in the same order, with the row's id and effective price |
| Products.ProjectAll | src/lib/data/products.ts:98-106 | the `map` over the rows gives one record per row, in the same order, with the row's id and effective price |
| Products.Catalog | src/lib/data/products.ts:98-106 | definition only, no contract: the resolved rows, projected with their first images; `CatalogProperties` states its properties |
| Products.SelectRows | src/lib/data/products.ts:21-77 | the rows left after the category check, the under-25 filter and the price sorts, reassigned step by step, are the resolved rows |
| Products.ProjectAllWithFirstImages | src/lib/data/products.ts:98-106 | projecting with images looked up in the first-image map gives each row the url of its first media row |
| Products.CatalogProperties | src/lib/data/products.ts:57-106 | the catalog's prices are ordered under the price sorts and at most 25 for `under-25`, and a missed category gives an empty catalog |
| Products.GetActiveProducts | src/lib/data/products.ts:21-106 | the output is the resolved rows, each with its first image, projected; it is ordered under the price sorts, capped at 25 for `under-25`, and empty for an unknown category |
| CheckoutStore.LoadDraft | src/lib/checkout/checkoutStore.ts:12-23 | a draft is returned exactly when there is a window and the entry parses to an object with a numeric `updatedAt`; its fields are the stored ones, unchecked |
| CheckoutStore.AfterSave | src/lib/checkout/checkoutStore.ts:25-33 | without a window or when the write throws the entry is unchanged; otherwise loading returns the saved name, notes and method with `updatedAt` the clock value |
| CheckoutStore.AfterClear | src/lib/checkout/checkoutStore.ts:35-42 | without a window or when removal throws the entry is unchanged; otherwise loading returns null |
| CheckoutStore.SaveOverwrites | src/lib/checkout/checkoutStore.ts:28-29 | a successful save gives the same entry whatever was stored before |
| CheckoutStore.SavedSlot | src/lib/checkout/checkoutStore.ts:28-29 | definition only, no contract: the entry a save writes, the triple with `updatedAt` the clock value; `AfterSave` states that it loads back |
| CheckoutStore.DraftStore.Load | src/lib/checkout/checkoutStore.ts:12-23 | load reads the entry by the rule above, and never returns a draft without a window and a stored value |
| CheckoutStore.DraftStore.Save | src/lib/checkout/checkoutStore.ts:25-33 | the entry becomes the one the save rule gives |
| CheckoutStore.DraftStore.Clear | src/lib/checkout/checkoutStore.ts:35-42 | the entry becomes the one the clear rule gives |
| QtyStepper.Dec | src/components/cart/QtyStepper.tsx:10-11 | the decrement is one less, but never below `min`, which defaults to 1 |
| QtyStepper.Inc | src/components/cart/QtyStepper.tsx:10-12 | the increment is one more, but never above `max`, which defaults to 99 |
| QtyStepper.StepsStayInBounds | src/components/cart/QtyStepper.tsx:11-12 | from a value in `[min, max]` both steps stay in `[min, max]` |
| QtyStepper.DisabledIffClamped | src/components/cart/QtyStepper.tsx:14-15 | a button is disabled exactly when its step would be clamped |
| QtyStepper.DisabledDec | src/components/cart/QtyStepper.tsx:14 | definition only, no contract: the minus button is disabled at or below `min`; `DisabledIffClamped` relates it to the step |
| QtyStepper.DisabledInc | src/components/cart/QtyStepper.tsx:15 | definition only, no contract: the plus button is disabled at or above `max`; `DisabledIffClamped` relates it to the step |
| MiniCartDrawer.Remaining | src/components/cart/MiniCartDrawer.tsx:23-25 | the amount remaining is never negative, is zero exactly when delivery is allowed, and otherwise brings the subtotal to exactly 25 |
| MiniCartDrawer.DeliveryAllowed | src/components/cart/MiniCartDrawer.tsx:23-24 | definition only, no contract: a subtotal of at least 25; `Remaining` relates it to the amount remaining |
| MiniCartDrawer.HeaderLabel | src/components/cart/MiniCartDrawer.tsx:29-33 | `Cart` for 0 items, `Cart (1 item)` for 1, otherwise `Cart (`, the count in decimal, and ` items)` |
| MiniCartDrawer.ShowsCountBadge | src/components/cart/MiniCartDrawer.tsx:98 | definition only, no contract: a positive item count; `BadgeIffItems` states when it holds |
| MiniCartDrawer.BadgeIffItems | src/components/cart/MiniCartDrawer.tsx:98-102 | for a valid cart the count badge shows, and the label names a count, exactly when the cart has lines |
| MiniCartDrawer.StepperNeverRemoves | src/components/cart/MiniCartDrawer.tsx:220-224 | with the stepper bounded to 1..99, either step on a line of a valid cart keeps every line and sets that line's quantity |
| CheckoutPage.Page.constructor | src/app/checkout/page.tsx:14-16 | the form starts with empty name and notes and `pickup` |
| CheckoutPage.Page.DeliveryAllowed | src/app/checkout/page.tsx:18 | definition only, no contract: the cart subtotal is at least 25; `SelectDelivery` states its effect |
| CheckoutPage.Page.Mount | src/app/checkout/page.tsx:25-31 | with no draft the fields keep their values; with one each missing field falls back to `""`, `""` or `pickup`, and a stored `delivery` is restored without checking the subtotal |
| CheckoutPage.Page.Autosave | src/app/checkout/page.tsx:34-36 | the whole triple is saved |
| CheckoutPage.Page.EditName | src/app/checkout/page.tsx:111 | the name changes alone, and a changed name saves the whole triple |
| CheckoutPage.Page.EditNotes | src/app/checkout/page.tsx:121 | the notes change alone, and changed notes save the whole triple |
| CheckoutPage.Page.SelectPickup | src/app/checkout/page.tsx:136 | pickup is always selected; a change saves the triple |
| CheckoutPage.Page.SelectDelivery | src/app/checkout/page.tsx:149-150 | delivery is selected exactly when the cart subtotal is at least 25, otherwise the method is unchanged; a change saves the triple |
| CheckoutPage.Page.ClearCart | src/app/checkout/page.tsx:214-216 | the cart is emptied and its save effect stores the empty cart, so it loads back empty unless the write throws; the form fields and the saved draft are untouched |
| ShopControls.DeleteProps | src/components/shop/ShopControls.tsx:25 | after `delete` the key has no value, deleting again changes nothing, and every other key keeps its value |
| ShopControls.DeleteFixed | src/components/shop/ShopControls.tsx:25 | deleting a key that is not present changes nothing |
| ShopControls.SetProps | src/components/shop/ShopControls.tsx:24 | after `set` the key has exactly the given value, the other parameters are unchanged and in order, and setting again changes nothing |
| ShopControls.WithSortProps | src/components/shop/ShopControls.tsx:22-27 | the path and all other parameters are kept in order; `sort` is absent for `new` or empty, and otherwise holds exactly the given value |
| ShopControls.WithSortIdempotent | src/components/shop/ShopControls.tsx:24-25 | applying `withSort` twice with the same sort is applying it once |
| ShopControls.HrefQuestionMark | src/components/shop/ShopControls.tsx:26 | an empty query gives the bare path; otherwise the path is followed by `?` |
| ShopControls.Delete | src/components/shop/ShopControls.tsx:25 | `delete` never lengthens the parameters, and no remaining entry has the key |
| ShopControls.Set | src/components/shop/ShopControls.tsx:24 | definition only, no contract: replace the key's entries by one in place of the first, or append; `SetProps` states the result |
| ShopControls.QueryString | src/components/shop/ShopControls.tsx:26 | the printed query is empty exactly when there are no parameters |
| ShopControls.Href | src/components/shop/ShopControls.tsx:26 | the link starts with the path |
| ShopControls.WithSort | src/components/shop/ShopControls.tsx:22-27 | `withSort` keeps the path; `WithSortProps` and `WithSortIdempotent` state what it does to the parameters |
| ShopControls.ChipLink | src/components/shop/ShopControls.tsx:34-36 | definition only, no contract: the chip's href with the current sort applied; `ChipLinksCarrySort` states its parameters |
| ShopControls.ChipActive | src/components/shop/ShopControls.tsx:35 | definition only, no contract: the chip's key equals the current category; `ActiveChip` states which chips can be active |
| ShopControls.SortLink | src/components/shop/ShopControls.tsx:60-61 | definition only, no contract: `/shop`, with `c` for a non-empty category, and the sort applied; `SortLinksCarryCategory` states its parameters |
| ShopControls.SortActive | src/components/shop/ShopControls.tsx:59 | definition only, no contract: the key equals the current sort; `ActiveSort` states which links can be active |
| ShopControls.ChipLinksCarrySort | src/components/shop/ShopControls.tsx:34-36 | every chip link carries the chip's own category and the current sort (none for `new` or empty) |
| ShopControls.SortLinksCarryCategory | src/components/shop/ShopControls.tsx:58-61 | every sort link carries the current category when it is non-empty, and its own sort, none for `new` |
| ShopControls.ActiveChip | src/components/shop/ShopControls.tsx:35 | "All" is active exactly when there is no category, and at most one chip is active |
| ShopControls.ActiveSort | src/components/shop/ShopControls.tsx:59 | at most one sort link is active, and one is exactly when the current sort is one of the three keys |

## Left out

- Database I/O is not modelled. This covers the category, product and media queries, their server-side `active`, category and ordering filters, and the errors they throw. The fetched rows are inputs. Where `maybeSingle` would fail on several categories with one slug, the model takes the first match.
- React plumbing is not modelled: context, provider, memoisation, effect scheduling, and the error `useCart` throws outside a provider. `Store.Hydrate`, `Store.Persist` and `Page.Autosave` are the effects, called explicitly.
- `JSON.parse` and `JSON.stringify` are not modelled. The storage entry holds the parsed value, or `Corrupt` for text that does not parse.
- Binary floating point is not modelled: `Number(...)`, float sums and products, and `toFixed` rounding on non-representable values. Amounts are exact reals.
- Money.FormatXCG: takes a whole number of cents or NaN. It does not model `toFixed` on amounts that are not whole cents, or its exponent form at 1e21 and above, because both are properties of binary floats.
- Money.FormatXCG: does not model the string-to-number coercion of its `number | string` argument; a string that is not a number is the `NaN` case.
- CartStore.Store.AddItem: does not model the default `qty = 1` of a missing argument; the caller always passes the quantity.
- CartStore.LoadCart: does not model a stored `items` value that is truthy but not an array of line items, such as a string, an object with a `length`, or an array holding `null`. `loadCart` returns such a value as the cart, and then the `reduce` folds at src/lib/cart/cartStore.tsx:54-57 throw during render. The entry therefore crashes the provider instead of loading as an empty cart. The model's parsed value holds only arrays of line items, so it cannot express this path.
- Products.SortByPrice: states that the result is a permutation ordered by effective price, but not that rows with equal effective price keep their fetched order. That stability, which `Array.prototype.sort` has, is not stated.
- Non-integer quantities are not modelled; quantities are integers.
- The intermediate autosave is not modelled. It happens on mount with the default triple, before hydration's setters take effect. `Page.Mount` saves once, with the hydrated triple.
- CartStore.Store.Hydrate: does not model the save effect at src/lib/cart/cartStore.tsx:49-51 running on the initial `{ items: [] }`. On every mount that effect runs in the same commit as hydration (lines 45-47). Hydration reads the entry first, then the save overwrites it with an empty cart, and only the next run of `Store.Persist` writes the loaded items back. The model calls `Store.Hydrate` and then `Store.Persist` with the loaded items. The interval in which the stored cart is empty is not modelled: a tab closed there, or a second write that throws, leaves an empty stored cart.
- CheckoutStore.LoadDraft: does not model stored `name`, `notes` or `method` values that are not strings, such as numbers, objects or `null`. `loadCheckoutDraft` checks only `updatedAt` (src/lib/checkout/checkoutStore.ts:18-19), and `Page.Mount` puts whatever is stored into the form state (src/app/checkout/page.tsx:28-30), where `??` replaces only `null` and `undefined`. The model's parsed draft holds optional strings, so it cannot express that path.
- Strictly increasing `updatedAt` is not modelled: the clock is a parameter, and nothing in the code orders its values.
- Cross-tab write races on the shared storage keys are not modelled. The model has one writer.
- The WhatsApp message, the Sentoo link and the redirect on clearing the cart are not modelled. They are string templating around `encodeURIComponent`, environment variables and `window.location`.
- ShopControls.WithSort: works on a parsed path and parameter list. It does not model URL parsing against the base `http://local`, or the percent-encoding `URLSearchParams` applies when printing.
- The sort labels and chip captions are display text only, and are not modelled.
- Animation, focus, scroll locking and the Escape key handling in the drawer are not modelled.
