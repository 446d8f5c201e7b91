# Point-of-sale transaction engine, modelled in Dafny

This project models the in-memory transaction engine of a retail point-of-sale
front end and proves properties of the model. The engine has three parts.

- **The local catalog database** (`SPOSLocalDB`, module `Catalog`, class
  `LocalDB`). It keeps these dictionaries:
  - product by id, product by barcode, and product ids by category;
  - category by id, and child category ids by parent;
  - partner by id;
  - a lower-case search string per product, which a linear substring search
    scans.

  Every `add_*` loop writes into these dictionaries in place. Each loop is a
  method proved against a fold over the loaded records, and the properties of
  loading are lemmas about those folds. Integer keys of a JavaScript object are
  enumerated in ascending numeric order, so the class keeps the ascending
  key lists `productIds` and `categoryIds` next to the maps. Its invariant
  `Valid()` says that all the dictionaries agree with each other.
- **Order lines and orders** (`SPOSOrderline` and `SPOSOrder`, module
  `Orders`, classes `OrderLine` and `Order`).
  - A line carries a quantity, a price, a discount clamped to [0, 100] and a
    selection flag. Its prices follow a flat 7% tax.
  - An order keeps an ordered list of line objects. It supports
    merge-or-append, selection with a fallback to the last line, removal by
    line identifier, totals summed over the lines, and an export snapshot.
  - `Order.Valid()` states that the identifiers of its lines are distinct and that at
    most one line is selected.
- **The engine** (`SPOSEngine`, module `PosEngine`, class `Engine`). It owns
  the database, the list of open orders and the identifier of the current
  order. It can create an order and get, set or delete the current one.

Module `Text` models the three string operations the search uses:
`toLowerCase`, `replace(/:/g, '')` and `indexOf`. Module `Scenarios` works
through a small end-to-end example: two espressos at 2.50 come to 5.00 before
tax, 0.35 tax and 5.35 in all.

Modelling decisions:
- Prices, quantities and discounts are exact `real`s.
- Absent optional strings (barcode, internal reference) are the empty string.
  Both are falsy in JavaScript.
- A category's `parent_id` is `NoParent`, `ParentFlag(b)` or `ParentPair(id, name)`.
- The search loop walks `productIds`. Under `Valid()` these are exactly the
  keys of the search-string dictionary, in JavaScript's enumeration order.
- The clock and the random generator are not modelled:
  - a timestamp is a `now` parameter;
  - line identifiers come from a counter in each order;
  - order identifiers come from a counter in the engine.

  The line counter keeps the identifiers of the lines of one order distinct;
  lines of different orders can share an identifier. The order counter keeps
  the identifiers of the engine's orders distinct.

### Behaviour of the code worth knowing
- A search can return 31 products: the loop pushes a match before it tests
  `results.length > 30` (`services/odooDB.ts:124-128`).
- A search visits the products in ascending numeric id order: the loop walks
  the keys of a plain object (`services/odooDB.ts:124`), and JavaScript
  enumerates array-index keys in ascending numeric order.
- A second load accumulates: the `add_*` methods write into the existing
  dictionaries and push onto the existing category lists
  (`services/odooDB.ts:47-58`).
- Merging a product into an existing line does not change any selection flag:
  the merge path returns the existing line before `select_orderline` is reached
  (`services/odooModels.ts:91-95`).

## Model

| member | source | states |
|---|---|---|
| Text.Lower | services/odooDB.ts:65 | lower-casing keeps the length |
| Text.LowerAt | services/odooDB.ts:65 | lower-casing works character by character, changing only `A`–`Z` |
| Text.LowerAppend | services/odooDB.ts:62-65 | lower-casing a concatenation lower-cases each part |
| Text.LowerIdempotent | services/odooDB.ts:65 | lower-casing twice is lower-casing once |
| Text.RemoveColons | services/odooDB.ts:64 | removing colons never lengthens the string |
| Text.RemoveColonsChars | services/odooDB.ts:64 | the result holds exactly the characters of the input other than `:` |
| Text.RemoveColonsNoColon | services/odooDB.ts:64 | a string without colons is unchanged |
| Text.OccursIff | services/odooDB.ts:125 | `indexOf(q) !== -1` holds iff `q` occurs at some position |
| Text.OccursInMiddle | services/odooDB.ts:125 | a string occurs in any concatenation that has it as a middle part |
| Catalog.LowerOccursInMiddle | services/odooDB.ts:62-65 | a part of the search string, lower-cased, occurs in the lower-cased whole it is concatenated into |
| Catalog.SearchStringHasBarcode | services/odooDB.ts:60-65 | a non-empty barcode, lower-cased, occurs in the search string |
| Catalog.SearchStringHasDefaultCode | services/odooDB.ts:60-65 | a non-empty internal reference, lower-cased, occurs in the search string |
| Catalog.SearchStringHasName | services/odooDB.ts:60-65 | a non-empty display name without its colons, lower-cased, occurs in the search string |
| Catalog.SearchStringEmpty | services/odooDB.ts:60-65 | the search string is empty iff barcode, reference and name all are |
| Catalog.SearchStringIsLower | services/odooDB.ts:65 | the search string is already lower case |
| Catalog.InsertSorted | services/odooDB.ts:31 | storing a key keeps the ascending key list strictly increasing; its keys are the old ones plus the new key |
| Catalog.EnumerationUnique | services/odooDB.ts:86 | a key set has exactly one ascending enumeration |
| Catalog.EnumerationSize | services/odooDB.ts:86 | an enumeration has one entry per key |
| Catalog.ProductFoldsStep | services/odooDB.ts:46-66 | one more loop iteration extends each product dictionary by exactly that product |
| Catalog.CategoryFoldsStep | services/odooDB.ts:30-42 | one more loop iteration extends the category dictionaries by exactly that category |
| Catalog.ByIdLastAdded | services/odooDB.ts:47 | after loading, an id finds the last loaded product with that id |
| Catalog.ByIdUntouched | services/odooDB.ts:47 | loading products with other ids leaves the lookup of an id as it was |
| Catalog.ByBarcodeUntouched | services/odooDB.ts:49-51 | loading products none of which carries a barcode leaves the entry for that barcode as it was, present or absent |
| Catalog.ByBarcodeLastAdded | services/odooDB.ts:49-51 | after loading, a non-empty barcode finds the last loaded product carrying it |
| Catalog.EmptyBarcodeNotIndexed | services/odooDB.ts:49 | loading never indexes the empty barcode |
| Catalog.ByCategoryAppends | services/odooDB.ts:53-58 | loading appends the category's loaded product ids, in load order, to that category's list and leaves other lists alone |
| Catalog.LoadTwiceListsTwice | services/odooDB.ts:53-58 | loading the same product twice lists its id twice in its category |
| Catalog.ChildrenAppends | services/odooDB.ts:33-41 | loading appends each parent key's loaded child ids, in load order, and leaves other lists alone |
| Catalog.ParentZeroIsRootChild | services/odooDB.ts:33-40 | a category whose parent pair has id 0 is filed under the root, like a category without a parent |
| Catalog.CategoryLastAdded | services/odooDB.ts:31 | after loading, an id finds the last loaded category with that id |
| Catalog.PartnerLastAdded | services/odooDB.ts:71 | after loading, an id finds the last loaded partner with that id |
| Catalog.MatchesAppend | services/odooDB.ts:124-127 | matching over two id lists in turn concatenates their matches |
| Catalog.ScanStep | services/odooDB.ts:125-127 | one scan step extends the matches by that product exactly when its stored string contains the query |
| Catalog.ScanPrefixResults | services/odooDB.ts:124-129 | a scan that ends, or stops once it holds more than 30, holds the first 31 matches of all ids |
| Catalog.MatchesSound | services/odooDB.ts:124-127 | every match is a stored, listed product whose search string contains the query |
| Catalog.MatchesComplete | services/odooDB.ts:124-127 | every stored, listed product whose search string contains the query is a match |
| Catalog.MatchesAscending | services/odooDB.ts:124 | matches over ascending ids come out in ascending id order |
| Catalog.SearchEmptyQuery | services/odooDB.ts:119 | the empty query finds nothing |
| Catalog.SearchSound | services/odooDB.ts:118-131 | at most 31 results; each is stored under its id and contains the lower-cased query; results are in ascending id order |
| Catalog.SearchCompleteWhenFew | services/odooDB.ts:124-130 | when at most 31 products match, each of them is returned |
| Catalog.AddProductKeepsTablesOk | services/odooDB.ts:46-66 | one iteration of the product loop keeps all product dictionaries in agreement |
| Catalog.AddCategoryKeepsTablesOk | services/odooDB.ts:30-42 | one iteration of the category loop keeps the category dictionaries in agreement |
| Catalog.Resolve | services/odooDB.ts:90 | `ids.map(id => byId[id])`: one entry per id, in order |
| Catalog.LocalDB.constructor | services/odooDB.ts:10-27 | all seven dictionaries and both key lists start empty and the root category id is 0 |
| Catalog.LocalDB.StoreCategory | services/odooDB.ts:31-41 | stores the category under its id and appends its id to the list of its parent key, or of 0 |
| Catalog.LocalDB.AddCategories | services/odooDB.ts:29-43 | the new dictionaries are the category folds over the old ones; agreement is kept |
| Catalog.LocalDB.StoreProduct | services/odooDB.ts:47-65 | stores under the id, under a non-empty barcode and in the category list, and records the search string |
| Catalog.LocalDB.ComposeSearchString | services/odooDB.ts:61-64 | builds the barcode, reference and name parts, each only when non-empty |
| Catalog.LocalDB.AddProducts | services/odooDB.ts:45-67 | the new dictionaries are the product folds over the old ones; agreement is kept |
| Catalog.LocalDB.AddPartners | services/odooDB.ts:69-73 | the new partner dictionary is the partner fold over the old one |
| Catalog.LocalDB.GetProductById | services/odooDB.ts:75-77 | finds a product iff the id is stored, and that product carries the id |
| Catalog.LocalDB.GetProductByBarcode | services/odooDB.ts:79-81 | finds a product iff the barcode is indexed; the product carries that non-empty barcode |
| Catalog.LocalDB.GetProductsByCategory | services/odooDB.ts:84-91 | category 0: every product once, in ascending id order; otherwise the products listed directly under the category, in list order, or `[]` |
| Catalog.LocalDB.GetSubcategories | services/odooDB.ts:93-97 | the categories filed under the parent, in insertion order, or `[]` |
| Catalog.LocalDB.GetCategoryParent | services/odooDB.ts:99-105 | the parent id for a known category with a parent pair, otherwise 0 |
| Catalog.LocalDB.GetPartnerById | services/odooDB.ts:107-109 | finds a partner iff the id is stored, and that partner carries the id |
| Catalog.LocalDB.GetAllCategories | services/odooDB.ts:111-113 | every category once, in ascending id order |
| Catalog.LocalDB.SearchProduct | services/odooDB.ts:118-131 | the loop returns exactly the first 31 matches of the lower-cased query in ascending id order, and `[]` for the empty query |
| Catalog.LocalDB.ProductInOwnCategory | services/odooDB.ts:53-58 | every stored product is among the products of its own category |
| Catalog.LocalDB.CategoryAmongSiblings | services/odooDB.ts:93-105 | every stored category is among the subcategories of its parent |
| Orders.PricesOf | services/odooModels.ts:48-64 | without tax = price × (1 − discount/100) × quantity; tax = 7% of that; with tax = without tax + tax |
| Orders.PriceWithTaxScales | services/odooModels.ts:53-56 | the price with tax is 1.07 × the price without tax |
| Orders.DiscountExtremes | services/odooModels.ts:50 | discount 0 charges price × quantity; discount 100 makes the line free |
| Orders.DiscountedWithinBounds | services/odooModels.ts:50-57 | for non-negative price and quantity, the discounted amount lies between 0 and price × quantity |
| Orders.Clamp | services/odooModels.ts:32 | the result is in [0, 100], equals `d` inside that range, and is the nearer bound outside it |
| Orders.TotalsAddUp | services/odooModels.ts:119-129 | total with tax = total without tax + total tax |
| Orders.TotalTaxIsRate | services/odooModels.ts:123-129 | total tax = 7% of the total without tax |
| Orders.SumsAppend | services/odooModels.ts:119-129 | the totals of two line lists in turn add up |
| Orders.QuantityOrOne | services/odooModels.ts:93-97 | an absent quantity or the falsy 0 becomes 1, any other value is kept |
| Orders.OrderLine.constructor | services/odooModels.ts:14-21 | a new line is at the list price, undiscounted and unselected |
| Orders.OrderLine.SetQuantity | services/odooModels.ts:23-25 | overwrites the quantity only |
| Orders.OrderLine.SetPrice | services/odooModels.ts:27-29 | overwrites the price only |
| Orders.OrderLine.SetDiscount | services/odooModels.ts:31-33 | the discount becomes `min(max(d, 0), 100)`, so lies in [0, 100]; nothing else changes |
| Orders.OrderLine.AllPrices | services/odooModels.ts:48-64 | the three pricing identities over the line's fields |
| Orders.OrderLine.PriceWithoutTax | services/odooModels.ts:35-37 | price × (1 − discount/100) × quantity |
| Orders.OrderLine.Tax | services/odooModels.ts:43-45 | 7% of the price without tax |
| Orders.OrderLine.PriceWithTax | services/odooModels.ts:39-41 | price without tax + tax, i.e. 1.07 × price without tax |
| Orders.OrderLine.Export | services/odooModels.ts:144-149 | the entry carries the product id, quantity, price and discount, and prices like the line |
| Orders.MergeIndex | services/odooModels.ts:91 | the first line with the same product id, the list price and no discount, if any |
| Orders.FirstSelected | services/odooModels.ts:104 | the first selected line, if any |
| Orders.WithoutId | services/odooModels.ts:113 | the filter never lengthens the list |
| Orders.WithoutIdMembers | services/odooModels.ts:113 | the filter keeps exactly the lines whose identifier differs |
| Orders.WithoutIdAppend | services/odooModels.ts:113 | the filter keeps the order of what it keeps |
| Orders.WithoutIdIdempotent | services/odooModels.ts:113 | filtering twice by one identifier is filtering once |
| Orders.WithoutIdRemovesOne | services/odooModels.ts:113 | with distinct identifiers, removing a line's identifier removes that line only, keeping the rest in order |
| Orders.WithoutIdUnchanged | services/odooModels.ts:113 | filtering by an identifier no line has changes nothing |
| Orders.WithoutIdKeepsValid | services/odooModels.ts:113 | filtering keeps identifiers distinct and below the counter |
| Orders.ExportLines | services/odooModels.ts:144-149 | one exported entry per line, in order |
| Orders.TotalsOfAppend | services/odooModels.ts:98-129 | appending a line adds its own three amounts to the three totals |
| Orders.SoleSelectionFound | services/odooModels.ts:104-110 | when only `line` is flagged, the first selected line is `line`; with no flags there is none |
| Orders.Order.constructor | services/odooModels.ts:78-87 | a new order is named "New Order", stamped `now`, empty, without client and temporary |
| Orders.Order.GetSelectedOrderline | services/odooModels.ts:103-105 | the first selected line, else the last line, else nothing, which is exactly when the order is empty |
| Orders.Order.SelectOrderline | services/odooModels.ts:107-110 | afterwards exactly `line` is selected, or none for null; the selected line is then `line`, or the last line |
| Orders.Order.AddProduct | services/odooModels.ts:89-101 | merge: the first mergeable line grows by the quantity or 1, with lines and flags unchanged; otherwise exactly one new line is appended and becomes the only selected line |
| Orders.Order.AppendLine | services/odooModels.ts:97-100 | a fresh line at the list price with no discount and the given quantity is appended and is the only selected line |
| Orders.Order.RemoveOrderline | services/odooModels.ts:112-117 | removes every line with that identifier, keeping the others in order; if lines remain, the new last one is the only selected line |
| Orders.Order.GetTotalWithTax | services/odooModels.ts:119-121 | the sum over the lines; 0 when empty; equals total without tax + total tax |
| Orders.Order.GetTotalWithoutTax | services/odooModels.ts:123-125 | the sum over the lines; 0 when empty |
| Orders.Order.GetTotalTax | services/odooModels.ts:127-129 | the sum over the lines; 0 when empty; 7% of the total without tax |
| Orders.Order.SetClient | services/odooModels.ts:131-133 | the client becomes the given one |
| Orders.Order.GetClient | services/odooModels.ts:135-137 | returns the current client |
| Orders.Order.ExportAsJson | services/odooModels.ts:139-153 | name, date, totals, one entry per line in order, and a partner id exactly when there is a client; the totals can be recomputed from the entries |
| PosEngine.FindOrder | services/odooModels.ts:185 | the first order with the given id, or nothing iff no order has it |
| PosEngine.FindOwnId | services/odooModels.ts:184-190 | with distinct ids, looking up an order's own id finds that order |
| PosEngine.WithoutOrder | services/odooModels.ts:195 | the filter never lengthens the list |
| PosEngine.WithoutOrderMembers | services/odooModels.ts:195 | the filter keeps exactly the orders whose id differs |
| PosEngine.WithoutOrderAppend | services/odooModels.ts:195 | the filter keeps the order of what it keeps |
| PosEngine.WithoutOrderUnchanged | services/odooModels.ts:195 | filtering by an id no order has changes nothing |
| PosEngine.WithoutOrderRemovesOne | services/odooModels.ts:195 | with distinct ids, removing an order's id removes that order only, keeping the rest in order |
| PosEngine.WithoutOrderKeepsIds | services/odooModels.ts:195 | filtering keeps order ids distinct and below the counter |
| PosEngine.DeleteKeepsOthers | services/odooModels.ts:195 | deleting one order of distinct ids shortens the list by one and keeps every other order |
| PosEngine.Engine.constructor | services/odooModels.ts:163-168 | a fresh database whose seven dictionaries and key lists are all empty, no orders, no current order |
| PosEngine.Engine.LoadServerData | services/odooModels.ts:171-175 | the database becomes the category, product and partner folds, loaded in that order |
| PosEngine.Engine.GetOrder | services/odooModels.ts:184-186 | an order carrying the current id, or nothing iff no order carries it |
| PosEngine.Engine.SetOrder | services/odooModels.ts:188-190 | the current id becomes the order's id, so an order of the list is then the current one |
| PosEngine.Engine.AddNewOrder | services/odooModels.ts:177-182 | appends a fresh empty order and makes it the current one |
| PosEngine.Engine.DeleteCurrentOrder | services/odooModels.ts:192-202 | with no current order nothing changes; otherwise it is removed, and the first remaining order becomes current, or else a fresh empty "New Order" stamped `now`, without client and temporary, as `add_new_order` creates |
| Scenarios.OneEspresso | services/odooModels.ts:89-100 | adding a product with the default options to a new order gives one fresh line of quantity 1 at the list price, undiscounted, in a valid order |
| Scenarios.TwoEspressos | services/odooModels.ts:89-129 | adding a product twice with the defaults gives one line of quantity 2, with totals 5.00, 0.35 and 5.35 |
| Scenarios.TwoEspressoTotals | services/odooModels.ts:48-129 | one line of two at 2.50 totals 5.00 before tax, 0.35 tax, 5.35 with tax |
| Scenarios.TwoEspressosUnmerged | services/odooModels.ts:89-100 | adding a product twice with merging off gives two distinct lines, the second selected |

## Left out
- `push_orders` only logs the export to the console; the export itself is `Order.ExportAsJson`.
- The session, the payment lines and the `pos` back-reference are stored by the original but used by no logic.
- `Order-${Date.now()}` order ids, `Math.random` line identifiers and `new Date().toISOString()` timestamps are not modelled. Ids come from counters; a timestamp is a `now` parameter. Order ids that collide within one millisecond in the original cannot collide here.
- Orders.Order.RemoveOrderline: line identifiers are distinct only within one order (`Order.Valid`), because each order numbers its lines from 0. Passing a line of another order removes this order's line with the same number, where the original's random identifiers would almost surely remove nothing and only re-select the last line. Called with this order's own lines, the model matches the original.
- IEEE floating point and the `toFixed` display rounding are not modelled: amounts are exact reals, so NaN and infinities do not arise in the model. They do arise in the original: the numpad's `+/-` key goes through `parseInt` into the setters (`features/pos/POSScreen.tsx:41-44`), and `set_discount(NaN)` stores NaN, since `Math.max` and `Math.min` pass NaN through (`services/odooModels.ts:32`). There `Orders.OrderLine.SetDiscount`'s promise that the discount lies in [0, 100] does not hold.
- Catalog.LocalDB.GetProductByBarcode: barcodes that name members of `Object.prototype` are not modelled. In the original, `product_by_barcode` is a plain object literal (`services/odooDB.ts:11`), so looking up `"toString"`, `"constructor"` or `"hasOwnProperty"` returns the inherited function rather than `undefined` (`services/odooDB.ts:80`). Storing a product under the barcode `"__proto__"` (`services/odooDB.ts:50`) replaces the object's prototype instead of adding a key, after which looking up a field name such as `"display_name"` returns that product's field (its name) rather than `undefined`. The model treats every barcode as an ordinary key, so `Catalog.ByBarcodeUntouched` and `GetProductByBarcode` hold only for barcodes outside that set.
- `Text.Lower` lower-cases ASCII letters only; JavaScript's `toLowerCase` also maps other Unicode letters.
- Keys are natural numbers, always enumerated in ascending order. JavaScript does so only for array-index keys, below 2^32 - 1; larger ids would be enumerated after them in insertion order, which the model does not capture. Negative or fractional ids, which JavaScript also enumerates after the array-index keys, are not modelled; nor are string keys of the id dictionaries.
- Product fields that no core logic reads (`standard_price`, `taxes_id`, `qty_available`, `categ_id[1]`) are kept in the record but play no part.
- Orders.Order.AddProduct: `price` is accepted and ignored, as in the original (a new line always takes the list price).
- Orders.Order.AppendLine: its contract does not restate the totals; `Orders.TotalsOfAppend` relates the totals before and after an append.
- PosEngine.Engine.Valid: it covers the database and the order ids, not each order's own `Order.Valid`; the engine never touches order lines.
- The UI state caused by selection (which line numeric input targets) is outside the engine.
