# Nail-shop storefront: client state layer in Dafny

This project models the client-side state of a nail-art storefront written as
Vue/Pinia stores. Four parts are modelled:

- **Cart store** (`CartStore`). A list of (product snapshot, quantity) lines
  with at most one line per product id, stored under `nailshop:cart`. It
  supports add-or-increment, remove, update-quantity with input sanitising and
  clear, and derives the item count and the subtotal.
- **Catalog service** (`CatalogService`). A CRUD repository over a local cache
  of products, stored under `nailshop:nails` and seeded from the built-in mock
  data, in front of an optional remote HTTP API. Reads fall back to the cache
  when the remote call fails. Writes pass the remote outcome through untouched.
- **Catalog store** (`CatalogStore`). The product list of the session and the
  active filters, with loading and error flags and the current selection. It
  derives the filtered view and the three attribute facets, and brings its
  list back in line after each create, update and remove.
- **Order store** (`OrderStore`). Checkout: it rejects an empty selection,
  sums the prices into an order, and keeps that order as the confirmation.

`Storefront` composes the catalog store with the catalog service. Each of its
methods runs the service call and hands the outcome to the store.

Layout:

- `Shared`: `Option`, `Result`, the failures and their messages.
- `Seqs`: filtering, distinct values and subsequences, for any element type.
- `Text`: white-space trimming, ASCII lower-casing, substring search and
  decimal rendering.
- `NailTypes`: the product record and the two payloads.

The stores and the service are classes. Their methods update the fields in
place. A storage key is a ghost field `stored` of type `Stored<T>`, with one
case each for an absent key, unparsable text, a value that is not a list, and
a list. A method that persists sets `stored` to that list.

Three points about the code that the model follows:

- An order has no quantities. Its items are products and its total is the
  plain sum of their prices, with no per-line totals.
- In local mode, `fetchById` on an unknown id fails. `clone(undefined)`
  throws, so the call does not answer "nothing found".
- A failed remote read falls back to the cache, so `fetchAll` itself never
  fails. The catalog store's error path is taken when `loadProducts` throws
  while it sorts, maps or measures the data. In the model the store's `Result`
  parameter carries that failure; a malformed remote body that leads to it is
  not modelled (see "Left out").

## Model

| member | source | states |
|---|---|---|
| Shared.Message | src/modules/nails/api/nailService.ts:96 | every failure that is an `Error` has a message; only a thrown non-Error has none |
| Seqs.Filter | src/modules/cart/stores/useCartStore.ts:47 | `filter` keeps exactly the elements that pass the test, and never more than there were |
| Seqs.FilterIsSubsequence | src/modules/nails/stores/useNailStore.ts:64 | `filter` keeps the survivors in their original order |
| Seqs.FilterCounts | src/modules/nails/api/nailService.ts:115 | `filter` keeps each surviving value as often as it occurred and drops each other value entirely |
| Seqs.FilterAll | src/modules/cart/stores/useCartStore.ts:47 | a test that every element passes leaves the list unchanged |
| Seqs.FilterKeysDistinct | src/modules/nails/api/nailService.ts:115 | filtering a list with distinct keys leaves the keys distinct |
| Seqs.SubsequenceOfTail | src/modules/nails/stores/useNailStore.ts:64 | a subsequence of the tail is a subsequence of the whole list |
| Seqs.SubsequenceDropHead | src/modules/nails/stores/useNailStore.ts:64 | dropping the first element of a subsequence keeps it a subsequence |
| Seqs.Distinct | src/modules/nails/stores/useNailStore.ts:88 | `Array.from(new Set(...))` has no duplicates, holds exactly the values of the list, and is no longer than it |
| Seqs.DistinctKeys | src/modules/nails/stores/useNailStore.ts:87-95 | the distinct keys of a list have no duplicates and are exactly the keys some element has |
| Text.IsSpace | src/modules/nails/stores/useNailStore.ts:63 | reference definition of the characters `trim` cuts: ECMAScript white space and line terminators; Trim, TrimStart and TrimEnd state what is cut in its terms |
| Text.TrimStart | src/modules/nails/stores/useNailStore.ts:63 | the result is a suffix of the input: spaces are removed before it and it starts with a non-space |
| Text.TrimEnd | src/modules/nails/stores/useNailStore.ts:63 | the result is a prefix of the input: spaces are removed after it and it ends with a non-space |
| Text.Trim | src/modules/nails/stores/useNailStore.ts:63 | `trim()` is a slice of the text with only white space cut before and after it; neither of its ends is white space; it is empty exactly when every character is white space |
| Text.TrimFacts | src/modules/nails/stores/useNailStore.ts:63 | trimming the start and then the end leaves a slice cut only at white space, with no white space at either end, and nothing exactly when the text is all white space |
| Text.TrimEdges | src/modules/nails/stores/useNailStore.ts:63 | after both cuts neither end is white space, and the result is empty exactly when the text was all white space |
| Text.SliceOfSuffix | src/modules/nails/stores/useNailStore.ts:63 | the prefix of a suffix is a slice of the text, and what the prefix leaves of the suffix is what the slice leaves of the text |
| Text.LowerChar | src/modules/nails/stores/useNailStore.ts:63 | a character changes exactly when it is an upper-case ASCII letter, which becomes the small letter at the same place in the alphabet; the result is never a capital |
| Text.ToLower | src/modules/nails/stores/useNailStore.ts:63 | `toLowerCase()` keeps the length and lowers each character independently |
| Text.LowerKeepsSpace | src/modules/nails/stores/useNailStore.ts:63 | lower-casing a character keeps it white space or not white space |
| Text.TrimStartLower | src/modules/nails/stores/useNailStore.ts:63 | cutting leading white space and lower-casing can be done in either order |
| Text.TrimEndLower | src/modules/nails/stores/useNailStore.ts:63 | cutting trailing white space and lower-casing can be done in either order |
| Text.TrimLower | src/modules/nails/stores/useNailStore.ts:63 | `trim()` and `toLowerCase()` can be done in either order |
| Text.ToLowerIdempotent | src/modules/nails/stores/useNailStore.ts:63 | lowering twice is lowering once |
| Text.ToLowerKeepsOthers | src/modules/nails/stores/useNailStore.ts:67 | a character that is not an ASCII capital is kept at its position |
| Text.Contains | src/modules/nails/stores/useNailStore.ts:67-68 | `includes` holds exactly when the needle occurs at some position of the text |
| Text.ContainsEmpty | src/modules/nails/stores/useNailStore.ts:66 | every text contains the empty string |
| Text.ContainsPiece | src/modules/nails/stores/useNailStore.ts:67-68 | a text that contains a needle contains every piece of it |
| Text.DigitChar | src/modules/orders/stores/useOrderStore.ts:18 | a digit under ten renders as the character with that value |
| Text.Decimal | src/modules/orders/stores/useOrderStore.ts:18 | the decimal rendering of a number is digits only, at least one, with no leading zero |
| Text.DecimalRoundTrip | src/modules/orders/stores/useOrderStore.ts:18 | reading the rendering back gives the number |
| Text.DecimalInjective | src/modules/orders/stores/useOrderStore.ts:18 | different numbers have different renderings |
| NailTypes.IndexOfId | src/modules/nails/api/nailService.ts:94 | `findIndex` names the first entry with the id, and is none exactly when no entry has it |
| NailTypes.FindById | src/modules/nails/api/nailService.ts:68 | `find` returns the first entry of the list with that id (no earlier entry has it), and none exactly when no entry has it |
| NailTypes.WithoutId | src/modules/nails/api/nailService.ts:115 | the entries left are exactly those with a different id |
| NailTypes.WithoutIdKeepsOthers | src/modules/nails/api/nailService.ts:115 | removing an id keeps the other entries in order, each as often as before |
| NailTypes.WithoutIdKeepsIdsDistinct | src/modules/nails/api/nailService.ts:115 | removing an id keeps the remaining ids distinct |
| CartStore.LoadCart | src/modules/cart/stores/useCartStore.ts:10-21 | reference definition of `loadCart`: a stored list is taken as it is, and an absent key, unparsable text or a non-list gives the empty cart; the constructor and Persist state it |
| CartStore.LineTotal | src/modules/cart/stores/useCartStore.ts:73-75 | reference definition of one line's share of the subtotal, price times quantity; TotalsAfterAdd, TotalsAfterReplace and TotalsAfterRemove state how it moves the subtotal |
| CartStore.TotalQuantity | src/modules/cart/stores/useCartStore.ts:69-71 | reference definition of `itemCount`, the sum of the quantities; TotalsBounds and the TotalsAfter lemmas state its properties |
| CartStore.Subtotal | src/modules/cart/stores/useCartStore.ts:73-75 | reference definition of `subtotal`, the sum of the line totals; TotalsBounds, the TotalsAfter lemmas and TotalsExample state its properties |
| CartStore.LineIndex | src/modules/cart/stores/useCartStore.ts:33 | `find` by product id names the first matching line, and is none exactly when no line matches |
| CartStore.AddLine | src/modules/cart/stores/useCartStore.ts:32-41 | an existing line grows by the quantity and every other line is kept; a new product goes in front with the old lines shifted behind it |
| CartStore.WithoutProduct | src/modules/cart/stores/useCartStore.ts:47 | the lines left are exactly those of other products |
| CartStore.SetQuantity | src/modules/cart/stores/useCartStore.ts:57-59 | only the first matching line gets the new quantity; snapshots and length are kept; with no match nothing changes |
| CartStore.Sanitize | src/modules/cart/stores/useCartStore.ts:52 | a finite quantity is floored; a non-finite one becomes 0 |
| CartStore.TotalsBounds | src/modules/cart/stores/useCartStore.ts:69-75 | the item count is at least the number of lines when every quantity is at least one; the subtotal is not negative when no price or quantity is |
| CartStore.TotalsAfterReplace | src/modules/cart/stores/useCartStore.ts:69-75 | replacing a line moves both totals by the difference between the two lines |
| CartStore.WithoutAbsentProduct | src/modules/cart/stores/useCartStore.ts:47 | removing a product the cart lacks changes nothing |
| CartStore.TailUnique | src/modules/cart/stores/useCartStore.ts:33 | in a cart with one line per product, the rest of the cart holds neither the first product nor a repeated one |
| CartStore.TotalsAfterRemove | src/modules/cart/stores/useCartStore.ts:46-49 | with one line per product, removal takes off exactly that line's quantity and value, and one line |
| CartStore.TotalsAfterAdd | src/modules/cart/stores/useCartStore.ts:32-41 | adding raises the item count by the quantity and the subtotal by the quantity times the line's snapshot price |
| CartStore.RemoveKeepsOthers | src/modules/cart/stores/useCartStore.ts:47 | removal keeps the other products' lines in order, each as often as before |
| CartStore.TotalsAfterSet | src/modules/cart/stores/useCartStore.ts:57-60 | setting a quantity moves the totals by the change in that line's quantity |
| CartStore.AddKeepsUnique | src/modules/cart/stores/useCartStore.ts:33-41 | adding keeps at most one line per product id |
| CartStore.RemoveKeepsUnique | src/modules/cart/stores/useCartStore.ts:47 | removal keeps one line per id and leaves no line for the removed id |
| CartStore.SetKeepsUnique | src/modules/cart/stores/useCartStore.ts:57-59 | setting a quantity keeps one line per id |
| CartStore.AddKeepsPositive | src/modules/cart/stores/useCartStore.ts:32-41 | adding a positive quantity keeps every quantity positive |
| CartStore.RemoveKeepsPositive | src/modules/cart/stores/useCartStore.ts:47 | removal keeps every quantity positive |
| CartStore.AddTwice | src/modules/cart/stores/useCartStore.ts:33-41 | adding a new product twice leaves one front line with both quantities |
| CartStore.TotalsExample | src/modules/cart/stores/useCartStore.ts:69-75 | 1000 yen x 2 and 500 yen x 1 give subtotal 2500 and item count 3 |
| CartStore.Cart.constructor | src/modules/cart/stores/useCartStore.ts:10-24 | the cart starts with the stored list, or empty when the key is absent, the text does not parse or the value is not a list |
| CartStore.Cart.Persist | src/modules/cart/stores/useCartStore.ts:27-30 | storage holds the line list, and loading it gives the list back |
| CartStore.Cart.AddItem | src/modules/cart/stores/useCartStore.ts:32-44 | the quantity defaults to 1; lines become the add-or-increment result, which is persisted; `lastAddedTitle` is the product title; uniqueness is kept, positivity is kept for a positive quantity, and the item count grows by the quantity |
| CartStore.Cart.RemoveItem | src/modules/cart/stores/useCartStore.ts:46-49 | lines become those of other products, which are persisted; uniqueness and positivity are kept and the product is gone |
| CartStore.Cart.UpdateQuantity | src/modules/cart/stores/useCartStore.ts:51-62 | a sanitised quantity of 0 or less is exactly a removal; otherwise the matching line gets it and storage is written; with no match neither lines nor storage change |
| CartStore.Cart.Clear | src/modules/cart/stores/useCartStore.ts:64-67 | the cart and its stored copy are empty |
| CartStore.Cart.ResetLastAdded | src/modules/cart/stores/useCartStore.ts:80-82 | `lastAddedTitle` is cleared and nothing else changes |
| CartStore.Cart.ItemCount | src/modules/cart/stores/useCartStore.ts:69-71 | the sum of the quantities; zero for an empty cart, at least the number of lines when every quantity is positive |
| CartStore.Cart.CartSubtotal | src/modules/cart/stores/useCartStore.ts:73-75 | the sum of price times quantity over the lines; zero for an empty cart, not negative when no price or quantity is |
| CartStore.Cart.HasItem | src/modules/cart/stores/useCartStore.ts:77-78 | holds exactly when some line has that product id |
| CatalogService.LoadFromStorage | src/modules/nails/api/nailService.ts:17-35 | the stored list when it is a non-empty list; otherwise the mock data |
| CatalogService.SeededStorage | src/modules/nails/api/nailService.ts:22-26 | an absent key is seeded with the mock data; any other entry stays as it is |
| CatalogService.FromPayload | src/modules/nails/api/nailService.ts:77-81 | reference definition of `{ ...payload, id, createdAt }`; FromPayloadRoundTrip states its fields |
| CatalogService.FromPayloadRoundTrip | src/modules/nails/api/nailService.ts:77-81 | a created product carries the payload's fields, the new id and the creation time, and no update time |
| CatalogService.Merge | src/modules/nails/api/nailService.ts:99-103 | an update keeps id and creation time and stamps the update time; each of the seven fields takes the payload's value when the payload names it and keeps the current value otherwise |
| CatalogService.MergeProperties | src/modules/nails/api/nailService.ts:99-103 | a payload that names every field determines them all; an empty payload only stamps the time; merging twice is merging once |
| CatalogService.NailService.constructor | src/modules/nails/api/nailService.ts:42 | the cache is what `loadFromStorage` returns, and storage is seeded when the key was absent |
| CatalogService.NailService.Persist | src/modules/nails/api/nailService.ts:37-40 | storage holds the cache |
| CatalogService.NailService.FetchAll | src/modules/nails/api/nailService.ts:47-57 | a successful remote list, otherwise the local cache |
| CatalogService.NailService.FetchById | src/modules/nails/api/nailService.ts:59-69 | a successful remote record; otherwise the first cached entry with the id, and a failure exactly when the cache has none |
| CatalogService.NailService.Create | src/modules/nails/api/nailService.ts:71-86 | remote: the reply, with cache and storage untouched; local: the new product heads the cache, which is persisted, and a fresh id keeps ids distinct |
| CatalogService.NailService.Update | src/modules/nails/api/nailService.ts:88-107 | remote: the reply, untouched cache; local unknown id: 'Item not found' and nothing changes; local known id: the first entry becomes its merge, which is persisted; length, ids and their distinctness are kept |
| CatalogService.NailService.Remove | src/modules/nails/api/nailService.ts:109-117 | remote: the reply, untouched cache; local: the cache without that id, persisted; distinct ids stay distinct |
| CatalogStore.DefaultFilters | src/modules/nails/stores/useNailStore.ts:14-20 | empty keyword and attribute lists, price range 0 to 5000 |
| CatalogStore.ApplyDraft | src/modules/nails/stores/useNailStore.ts:55-60 | reference definition of `{ ...filters, ...draft }`; ApplyDraftOverrides states its properties |
| CatalogStore.ApplyDraftOverrides | src/modules/nails/stores/useNailStore.ts:55-60 | a draft overrides exactly the fields it names; applying it twice is applying it once; an empty draft changes nothing |
| CatalogStore.NormalizeKeyword | src/modules/nails/stores/useNailStore.ts:63 | reference definition of `keyword.trim().toLowerCase()`; SpringKeywordIsNormal and BlankKeywordMatchesAll use it |
| CatalogStore.Matches | src/modules/nails/stores/useNailStore.ts:65-83 | reference definition of the five tests an item must pass; FilterItemsMembership spells them out and FilterItems and FilterItemsCounts state the view in its terms |
| CatalogStore.NormalizeKeywordCaseBlind | src/modules/nails/stores/useNailStore.ts:63 | keywords that agree once lower-cased normalise to the same text |
| CatalogStore.KeywordCaseBlind | src/modules/nails/stores/useNailStore.ts:63-68 | the keyword match is case-insensitive: keywords that agree once lower-cased pass and fail the same items |
| CatalogStore.ItemCaseBlind | src/modules/nails/stores/useNailStore.ts:65-68 | changing only the case of an item's title or description does not change whether it matches |
| CatalogStore.FilterItems | src/modules/nails/stores/useNailStore.ts:62-85 | the view is a subsequence of the list, holding exactly the items that pass all five tests |
| CatalogStore.FilterItemsCounts | src/modules/nails/stores/useNailStore.ts:64 | the view holds each matching item as often as the list does, and no other item |
| CatalogStore.FilterItemsMembership | src/modules/nails/stores/useNailStore.ts:63-83 | an item is in view exactly when the trimmed lower-cased keyword is empty or occurs in its lower-cased title or description, each attribute list is empty or holds its value, and its price lies in the range |
| CatalogStore.UnrestrictedFilterIsIdentity | src/modules/nails/stores/useNailStore.ts:62-84 | with no keyword, no attribute restriction and a price range that covers every item, the view is the whole list |
| CatalogStore.DataBoundsCover | src/modules/nails/stores/useNailStore.ts:39-42 | the range from the lowest to the highest loaded price covers every loaded item, so with nothing else to filter on the view is the whole list |
| CatalogStore.LoadedCatalog | src/modules/nails/stores/useNailStore.ts:34-42 | the loaded list is the fetched data newest first, empty exactly when the data is, and the data's price range covers it; with no other restriction the view is then the whole list |
| CatalogStore.BlankKeywordMatchesAll | src/modules/nails/stores/useNailStore.ts:63-66 | a keyword of white space only restricts nothing |
| CatalogStore.SpringKeywordExample | tests/unit/nailStore.spec.ts:24-26 | with the keyword '春色', every item in view has '春' in its title or description |
| CatalogStore.SpringKeywordIsNormal | src/modules/nails/stores/useNailStore.ts:63 | trimming and lower-casing leave '春色' unchanged |
| CatalogStore.LoweredOccurrence | tests/unit/nailStore.spec.ts:26 | '春色' in the lower-cased text puts '春' in the text itself |
| CatalogStore.InsertNewest | src/modules/nails/stores/useNailStore.ts:34-36 | inserting into a newest-first list keeps it newest first and adds exactly the one product |
| CatalogStore.TailNewestFirst | src/modules/nails/stores/useNailStore.ts:34-36 | the rest of a newest-first list is newest first, and nothing in it is newer than the head |
| CatalogStore.ConsNewestFirst | src/modules/nails/stores/useNailStore.ts:34-36 | a product no older than any entry may go in front of a newest-first list |
| CatalogStore.NoNewerThanHead | src/modules/nails/stores/useNailStore.ts:34-36 | the rest of a newest-first list plus an older product holds nothing newer than the head |
| CatalogStore.SortNewestFirst | src/modules/nails/stores/useNailStore.ts:34-36 | the sort yields the same products, newest first |
| CatalogStore.InsertNewestStable | src/modules/nails/stores/useNailStore.ts:34-36 | an insertion goes ahead of the products it ties with and leaves every other time stamp's products in order |
| CatalogStore.SortNewestFirstStable | src/modules/nails/stores/useNailStore.ts:34-36 | the sort is stable: products with the same time stamp keep their order |
| CatalogStore.MinPrice | src/modules/nails/stores/useNailStore.ts:41 | `Math.min` is a price of the list and no larger than any |
| CatalogStore.MaxPrice | src/modules/nails/stores/useNailStore.ts:41 | `Math.max` is a price of the list and no smaller than any |
| CatalogStore.ReplaceById | src/modules/nails/stores/useNailStore.ts:112 | every item with the id is replaced by the answer, every other item is kept, and the length is kept |
| CatalogStore.ReplaceByIdKeepsIds | src/modules/nails/stores/useNailStore.ts:112 | an answer with the same id keeps every id and so their distinctness |
| CatalogStore.ColorsOf | src/modules/nails/stores/useNailStore.ts:87-89 | the colors with no duplicates, exactly those some item has |
| CatalogStore.SeasonsOf | src/modules/nails/stores/useNailStore.ts:90-92 | the seasons with no duplicates, exactly those some item has |
| CatalogStore.DesignsOf | src/modules/nails/stores/useNailStore.ts:93-95 | the designs with no duplicates, exactly those some item has |
| CatalogStore.LoadErrorText | src/modules/nails/stores/useNailStore.ts:44-45 | an Error's message, or the generic text for a thrown non-Error |
| CatalogStore.NailStore.constructor | src/modules/nails/stores/useNailStore.ts:23-27 | empty list, not loading, no error, default filters, no selection |
| CatalogStore.NailStore.LoadProducts | src/modules/nails/stores/useNailStore.ts:29-49 | success: the data newest first, no error, the price range set to the data's min and max when there is data and unchanged otherwise, and an unrestricted view then shows everything; failure: items and filters kept, the error text set; never left loading |
| CatalogStore.NailStore.ResetFilters | src/modules/nails/stores/useNailStore.ts:51-53 | the filters are the defaults and nothing else changes |
| CatalogStore.NailStore.UpdateFilters | src/modules/nails/stores/useNailStore.ts:55-60 | the filters are the old ones overridden by the draft, and nothing else changes |
| CatalogStore.NailStore.FilteredItems | src/modules/nails/stores/useNailStore.ts:62-85 | the view is a subsequence of the items, holding exactly the items that match the filters |
| CatalogStore.NailStore.ColorFacets | src/modules/nails/stores/useNailStore.ts:87-89 | no duplicates, exactly the colors in use |
| CatalogStore.NailStore.SeasonFacets | src/modules/nails/stores/useNailStore.ts:90-92 | no duplicates, exactly the seasons in use |
| CatalogStore.NailStore.DesignFacets | src/modules/nails/stores/useNailStore.ts:93-95 | no duplicates, exactly the designs in use |
| CatalogStore.NailStore.CreateProduct | src/modules/nails/stores/useNailStore.ts:97-106 | the created product is put in front; a failure keeps the list and propagates; never left loading |
| CatalogStore.NailStore.UpdateProduct | src/modules/nails/stores/useNailStore.ts:108-118 | the items with the id are replaced and the selection is cleared; a failure keeps both and propagates; never left loading |
| CatalogStore.NailStore.RemoveProduct | src/modules/nails/stores/useNailStore.ts:120-128 | the items with the id are dropped; a failure keeps them and propagates; never left loading |
| CatalogStore.NailStore.HighlightProduct | src/modules/nails/stores/useNailStore.ts:130-134 | the empty id changes nothing; a fetched record becomes the selection; a failed fetch propagates and keeps the selection |
| OrderStore.SumPrices | src/modules/orders/stores/useOrderStore.ts:16 | reference definition of the order total, the sum of the prices; SumPricesAppend and SumPricesPermutation state its properties |
| OrderStore.SumPricesAppend | src/modules/orders/stores/useOrderStore.ts:16 | the total of a concatenation is the sum of the two totals |
| OrderStore.SumPricesPermutation | src/modules/orders/stores/useOrderStore.ts:16 | the total does not depend on the order of the items |
| OrderStore.OrderId | src/modules/orders/stores/useOrderStore.ts:18 | the id starts with `order_` followed by at least one character |
| OrderStore.OrderIdsCollideOnlyOnSameStamp | src/modules/orders/stores/useOrderStore.ts:18 | two ids are equal exactly when their time stamps are |
| OrderStore.OrderStore.constructor | src/modules/orders/stores/useOrderStore.ts:7-8 | not processing, no confirmation |
| OrderStore.OrderStore.SubmitOrder | src/modules/orders/stores/useOrderStore.ts:10-29 | an empty list is rejected with the validation message before any state changes; otherwise the order has the given items and payload, the sum of the prices, an `order_` id and the time stamp, it becomes the confirmation, and processing ends |
| OrderStore.OrderStore.Reset | src/modules/orders/stores/useOrderStore.ts:31-33 | the confirmation is cleared and nothing else changes |
| Storefront.LoadCatalog | src/modules/nails/stores/useNailStore.ts:29-49 | the store's list is the service's data newest first, and with the local service or a failed remote read it holds exactly the cached products; no error, not loading; the price range becomes the list's lowest and highest price and covers it, unless the list is empty; the selection is kept |
| Storefront.CreateListing | src/modules/nails/stores/useNailStore.ts:97-106 | locally, the new product heads both the cache and the store's list, and the cache is persisted; remotely, the reply is the outcome, the cache and storage are untouched, and the reply heads the store's list only when it succeeds; filters, error and selection are kept and loading ends |
| Storefront.UpdateListing | src/modules/nails/stores/useNailStore.ts:108-118 | locally, an unknown id fails with both lists, the storage and the selection kept; for a known id the merge replaces the id in the store and the first entry in the cache, the cache is persisted and the selection is cleared; remotely, the reply decides both the store's list and the selection, and the cache is untouched; filters and error are kept and loading ends |
| Storefront.RemoveListing | src/modules/nails/stores/useNailStore.ts:120-128 | locally, the id leaves both lists and the cache is persisted; remotely, the reply is the outcome, the cache is untouched, and the id leaves the store's list only when the reply succeeds; filters, error and selection are kept and loading ends |
| Storefront.Highlight | src/modules/nails/stores/useNailStore.ts:130-134 | the empty id changes nothing; a record the service finds becomes the selection, a remote reply's record included; a failed fetch propagates its failure and keeps the selection; locally, a non-empty id is selected exactly when the cache holds it, and the selection is a cached product with that id |

## Left out

- Server-side rendering: the branches taken when `window` is undefined (`typeof window === 'undefined'`) are not modelled. In those branches the cart starts empty, the catalog starts from the mock data, and nothing is persisted.
- `console.warn` logging is not modelled, because it changes no state.
- The 600 ms latency of `submitOrder` is not modelled, and neither are async interleaving or concurrent calls: every operation is atomic.
- The network is not modelled. Each HTTP call is represented by its reply, a `Result` parameter that is read only in remote mode. URLs and status codes are not part of the model.
- Clocks and id generation are not modelled. `Date.now()`, `new Date().toISOString()` and `crypto.randomUUID`/`Math.random` become parameters: `now`, `createdAt` and `newId`. Time stamps are integers, not ISO strings.
- The mock product list is not modelled. It is a constructor parameter of `NailService`.
- Local storage is not one key-to-text map here. Each store owns one ghost slot `stored`. JSON text is represented by the four cases of `Stored`. `clone` is the identity on values.
- `CatalogStore.NailStore.LoadProducts`, `Storefront.LoadCatalog`: a remote reply whose body is not a list of products is not modelled. Examples are an object, `null`, an HTML page or a list with a `null` entry. With such a body the code throws in `sort` or `map`, and the catch records the error's message. A list too long for `Math.min(...prices)` is not modelled either; it throws a RangeError. The reply and the store's `Result` parameter stand for well-formed data or a failure. The service models only the failure it recovers from.
- Malformed stored records are not modelled. A stored list that parses but holds records of the wrong shape is read as given, with no validation.
- In `loadFromStorage`, a parsed value that is not an array is always treated like an empty list. The JavaScript code would keep such a value if it had a truthy `length` property.
- Lower-casing covers ASCII letters only. `toLowerCase` on other scripts is not modelled. White space follows the ECMAScript definition.
- A draft field present with the value `undefined` is not modelled. In the model a draft field is either absent (`None`) or a value.
- `CatalogService.Merge`: an update payload field present with the value `undefined` is not modelled. The spread would set that field to `undefined`; in the model a payload field is either absent (`None`, which keeps the current value) or a value.
- `Sanitize`: `Number.isFinite` is not modelled on floating-point numbers. The quantity is an `Option<real>`, with `None` standing for NaN and the infinities.
- `CatalogStore.SortNewestFirst`: the in-place sort is modelled as a function on the fetched list. What is modelled is its outcome, not the array it shares with the caller. `Date` parsing of invalid time stamps (comparator returning NaN) is left out.
- `CartStore.Cart.AddItem`: the code does not check that a quantity is positive. So positivity is stated only for a positive quantity, not as a precondition. The quantity is also an integer here: the code takes any number and stores it unchanged, so a fractional quantity or NaN is not modelled (only `updateQuantity` sanitises its input).
- `CatalogService.NailService.Create`: id freshness is not guaranteed by the code (random ids). So distinct ids are promised only for an id the cache does not already hold.
