# SuluPricingBundle calculation engine, in Dafny

This project models the price calculation engine of the Sulu pricing bundle
and proves properties of it. The engine has three layers.

- **Item price calculator** (`ItemPriceCalculator`). It validates a line
  item: the quantity must not be null and the discount must lie in 0..100.
  It then resolves the item's unit net price. That price is either the
  item's own price, or a price from its product or addon. A product price is
  the smaller of the special and bulk prices, and a priceless product
  variant falls back to its parent. A gross price becomes net as
  `p / (100 + tax) * 100`. Finally the calculator computes the discounted
  line total `p*q - (p*q/100)*discount`, and offers the item the change from
  its stored price to the resolved one.
- **Aggregation over a list of items.**
  - `GroupedItemsPriceCalculator` adds each item's total to its price group
    and to either the recurring or the one-time total. It can also commit
    recorded price changes.
  - `PricingManager` (the `PriceCalculationManager` of `Pricing/`) prices a
    request. It sums the net totals and, unless the request is tax-free,
    collects each line's tax in a bucket per tax-rate string and adds it to
    the gross total.
- **Item construction and request shaping.**
  - `Items.CalculableItem` is the mutable line item.
  - `CalculableItemManager` builds an item from a key/value map.
  - `ItemData` holds the map cleaning shared by both managers and the
    per-entry pricing step.
  - `RetrievalManager` (the `PriceCalculationManager` of `Manager/`) returns
    the priced items of a request.

## Modelling choices

- **Numbers.**
  - Money and quantities are exact `real`s.
  - PHP's nullable numbers are `Option<real>`, and PHP arithmetic reads a
    null as 0 (`Values.NumberOrZero`).
  - Raw request data is a map from strings to PHP values, with PHP's
    truthiness, `isset` and `empty`.
- **Catalog.**
  - A product holds an optional parent, so the parent fallback terminates
    structurally.
  - The price manager's special, bulk and addon lookups read finite price
    tables.
- **Items and managers.**
  - `CalculableItem` is a class. The fields its setters update are `var`s.
  - The price group, the group content and whether `setPriceChange` records
    anything are constants. For a `CalculableItem` they are null, an empty
    array and no. The item store hands back an entity with real answers.
  - Each manager is a class holding its calculator context and an optional
    item manager.
- **Loops.** Every loop is a `method` whose invariant ties its state to a
  prefix-recursive specification function:
  - `CalculateRun` for `calculate`;
  - `PriceAll` and `Totals` for the managers;
  - the loop state itself for `setPricesOfChanged`.
- **Exceptions.** A thrown exception is an `Err` (or `Fail`) that ends the
  computation.
- **Undefined methods.** Three call sites name methods that
  `ItemPriceCalculator` does not define. They are read as follows:
  - `calculate` at `Pricing/GroupedItemsPriceCalculator.php:59` and
    `Pricing/PriceCalculationManager.php:82` is `calculateItemTotalNetPrice`;
  - `getItemPrice` at `Pricing/PriceCalculationManager.php:76` is
    `calculateItemNetPrice`.
- **Behaviour worth noting.**
  - The tax of a line in `calculateItemPrices` is
    `unitPrice * tax / 100 * quantity`, on the undiscounted unit price, not
    on the discounted line total (`Pricing/PriceCalculationManager.php:95`).
  - `calculate` (`Pricing/GroupedItemsPriceCalculator.php:44`) takes no
    shipping or tax-free parameters, allocates no shipping costs and
    computes no per-group taxes.
  - A price change is offered only when the stored price is truthy, so a
    stored price of 0 or null never records one.

## Model

| member | source | states |
|---|---|---|
| Items.CalculableItem.constructor | Model/CalculableItem.php:35-55 | every argument lands in its field, the flags default to false and product and addon to null; the total net price is null, there is no price group, no group content and no recorded change |
| Items.CalculableItem.GetPriceChange | Model/CalculableItem.php:97-100 | a `CalculableItem` always answers null; an item that records changes answers its last change |
| Items.CalculableItem.SetPrice | Model/CalculableItem.php:87-90 | only the price changes; flag, total and change log stay |
| Items.CalculableItem.SetTotalNetPrice | Model/CalculableItem.php:132-135 | only the total net price changes; every getter value and the change log stay |
| Items.CalculableItem.SetUseProductsPrice | Manager/PriceCalculationManager.php:71 | only the product-pricing flag of the saved item changes |
| Items.CalculableItem.SetPriceChange | Model/CalculableItem.php:92-95 | a no-op for a `CalculableItem`; an item that records changes keeps `(from, to)`; nothing else changes |
| CalculableItemManager.GetProperty | Manager/CalculableItemManager.php:80-83 | the entry whenever the key exists, even a null one, else the default |
| CalculableItemManager.IdOf | Manager/CalculableItemManager.php:94 | an id exists exactly when the data is an array with a non-null `id` |
| CalculableItemManager.GetProductByData | Manager/CalculableItemManager.php:90-99 | the repository is asked exactly when an id is set, and with that id; otherwise null |
| CalculableItemManager.GetAddonByData | Manager/CalculableItemManager.php:53 | the addon is looked up by the same rule as the product |
| CalculableItemManager.NumberOf | Manager/CalculableItemManager.php:41-44 | a number passes unchanged, a boolean counts 1 or 0, anything else gives null |
| CalculableItemManager.StringOf | Manager/CalculableItemManager.php:46 | a string currency code passes unchanged; anything else gives null |
| CalculableItemManager.CalculableItemFields | Manager/CalculableItemManager.php:39-68 | defines the getter values `createCalculableItem` gives an item; its properties are stated by `CalculableItemFieldsSpec` |
| CalculableItemManager.CalculableItemFieldsSpec | Manager/CalculableItemManager.php:39-68 | each field comes from its own key: a missing key gives null and a number (or, for the currency, a string) is kept; a missing `isRecurringPrice` gives false and a missing `useProductsPrice` gives true, a present one its truthiness; product and addon are found by id or are null |
| CalculableItemManager.MissingQuantityIsRejected | Manager/CalculableItemManager.php:41 | an item built with a missing or null quantity is rejected by the calculator with "Attribute quantity must not be null", for net price and line total alike |
| CalculableItemManager.CalculableItemManager.constructor | Manager/CalculableItemManager.php:28-32 | the manager keeps the repository it is given |
| CalculableItemManager.CalculableItemManager.CreateCalculableItem | Manager/CalculableItemManager.php:39-68 | a new item whose fields are the request's values, with no total, no group and no change log |
| ItemPriceCalculator.GetCurrency | Pricing/ItemPriceCalculator.php:179-182 | a truthy currency is kept; a null, empty or "0" currency becomes the configured default |
| ItemPriceCalculator.ValidateNotNull | Pricing/ItemPriceCalculator.php:165-170 | fails exactly on null, with "Attribute <key> must not be null" |
| ItemPriceCalculator.ValidateItem | Pricing/ItemPriceCalculator.php:145-155 | passes iff the quantity is set and the discount is null or within 0..100; the null quantity is reported first, then the discount message |
| ItemPriceCalculator.ToNet | Pricing/ItemPriceCalculator.php:113-119 | the round trip: the net value times `(100 + tax) / 100` gives back the gross value; a positive gross price becomes a smaller positive one, and 0 stays 0 |
| ItemPriceCalculator.RetrieveProductTypeIdByKey | Pricing/ItemPriceCalculator.php:282-289 | the configured id iff the key is configured, else null |
| ItemPriceCalculator.SelectProductPrice | Pricing/ItemPriceCalculator.php:252-262 | the result is one of the two prices; when both are non-empty it is their minimum; otherwise it is the special price when that is non-empty, else the bulk price |
| ItemPriceCalculator.OwnPriceOfProduct | Pricing/ItemPriceCalculator.php:237-262 | defines a product's own price from its special and bulk prices; its properties are stated by `OwnPriceOfProductSpec` |
| ItemPriceCalculator.OwnPriceOfProductSpec | Pricing/ItemPriceCalculator.php:237-262 | the own price is the special or the bulk amount, and it is non-empty exactly when one of them is |
| ItemPriceCalculator.GetPriceOfProduct | Pricing/ItemPriceCalculator.php:235-273 | a product with a non-empty own price gets that price; without a configured `PRODUCT_VARIANT` id, or without a parent, there is no fallback; a priceless variant with a parent gets its parent's price, and every other product, a configured variant id the product's type does not match included, gets its own price |
| ItemPriceCalculator.PriceComesFromLineage | Pricing/ItemPriceCalculator.php:264-270 | every product price is the own price of some product of its parent chain, one that has a price or does not fall back; every product before it is a priceless variant with a parent; quantity and currency are the same throughout |
| ItemPriceCalculator.ProductSourcePrice | Pricing/ItemPriceCalculator.php:194-210 | an addon takes precedence over the product; its own currency price is used if the price manager has one, else the price of the product sold as the addon; the gross flag comes from that product; without addon and product the price is empty |
| ItemPriceCalculator.ValidProductNetPriceForItem | Pricing/ItemPriceCalculator.php:192-226 | the result is 0 iff the source price is empty; a gross source price at a positive tax is turned into net, and any other source price is kept |
| ItemPriceCalculator.CalculateItemNetPrice | Pricing/ItemPriceCalculator.php:98-122 | validation failures are raised first and are the only failures; with product pricing and a product or addon, the price comes from the product source; otherwise the item's own price is used, turned into net only when it is gross and the tax is positive |
| ItemPriceCalculator.LineTotal | Pricing/ItemPriceCalculator.php:65-83 | the total is `p*q*(100 - discount)/100` with null read as 0; for `p, q >= 0` and a valid discount it lies between 0 and `p*q` |
| ItemPriceCalculator.ItemTotalNetPrice | Pricing/ItemPriceCalculator.php:63-84 | fails exactly when validation fails, with its error; otherwise it is the line total of the resolved net price |
| ItemPriceCalculator.PriceChangeFor | Pricing/ItemPriceCalculator.php:71-73 | a change exists iff the stored price is truthy and differs from the resolved one; it goes from the stored price to the resolved price |
| ItemPriceCalculator.CalculateItemTotalNetPrice | Pricing/ItemPriceCalculator.php:63-84 | returns the item's line total or its validation error; no getter value or total changes, and only an item that records changes takes the offered change |
| GroupedItemsPriceCalculator.PriceGroupKey | Pricing/GroupedItemsPriceCalculator.php:107-111 | an item without a price group is grouped under "undefined", any other under its group |
| GroupedItemsPriceCalculator.NewGroupShape | Pricing/GroupedItemsPriceCalculator.php:119-128 | a new group entry has no items and no price; it takes the group content except the keys the calculator sets itself |
| GroupedItemsPriceCalculator.AddPriceToPriceGroup | Pricing/GroupedItemsPriceCalculator.php:105-135 | defines `addPriceToPriceGroup` on the two group arrays; its properties are stated by `AddPriceToPriceGroupSpec` |
| GroupedItemsPriceCalculator.AddPriceToPriceGroupSpec | Pricing/GroupedItemsPriceCalculator.php:105-135 | the price is added to the item's group, created at 0 when missing and accumulated into otherwise; the item joins the end of the group's item list and the entry's price is the group's price; every other group's entries stay |
| GroupedItemsPriceCalculator.AddItemGroupKeys | Pricing/GroupedItemsPriceCalculator.php:113-130 | adding an item adds exactly its group to both arrays |
| GroupedItemsPriceCalculator.AddItemGroupItems | Pricing/GroupedItemsPriceCalculator.php:129 | adding an item appends it to its own group's items and to no other |
| GroupedItemsPriceCalculator.AddItemGroupPrices | Pricing/GroupedItemsPriceCalculator.php:113-116 | adding an item raises its own group's price by its total and no other |
| GroupedItemsPriceCalculator.AddItemKeepsBalance | Pricing/GroupedItemsPriceCalculator.php:62-69 | a recurring item's total goes to `totalRecurringPrice` and a one-time item's to `totalPrice`, the other total staying; the group prices less the two totals do not change |
| GroupedItemsPriceCalculator.AddItemKeepsGroupsWellFormed | Pricing/GroupedItemsPriceCalculator.php:119-130 | after an addition every entry still carries its group's price, and no content key overrides the calculator's keys |
| GroupedItemsPriceCalculator.FailureStopsRun | Pricing/GroupedItemsPriceCalculator.php:58-70 | once an item has failed, the items after it change nothing |
| GroupedItemsPriceCalculator.RunAdvance | Pricing/GroupedItemsPriceCalculator.php:58-70 | after a successful prefix, the next item either extends the run or ends it with its exception |
| GroupedItemsPriceCalculator.CalculateRun | Pricing/GroupedItemsPriceCalculator.php:58-70 | defines the loop of `calculate` over the first `n` items: each step adds the item's total or stops with its exception; the lemmas below state its properties |
| GroupedItemsPriceCalculator.ChangeAfterPricingIdempotent | Pricing/ItemPriceCalculator.php:71-73 | pricing an item a second time leaves its change log as the first pricing left it |
| GroupedItemsPriceCalculator.LoggedChangesAt | Pricing/GroupedItemsPriceCalculator.php:58-59 | the log expected for each item is the change pricing that item leaves |
| GroupedItemsPriceCalculator.PriceAndLog | Pricing/GroupedItemsPriceCalculator.php:59 | the item's total net price in the calculation's currency, with its own product-pricing flag; the item's change log becomes the expected one and nothing else changes |
| GroupedItemsPriceCalculator.PriceItem | Pricing/GroupedItemsPriceCalculator.php:59-69 | one loop body: after a successful prefix, it extends the run or, exactly when the item cannot be priced, ends it with the item's exception; the item then holds its logged change |
| GroupedItemsPriceCalculator.PriceItems | Pricing/GroupedItemsPriceCalculator.php:58-70 | the loop yields exactly the specified run, stopping at the first failing item; the items up to the one it stopped after, and any later position holding one of them again, hold their logged changes, and every other item keeps its old change; no item's getter values or total change |
| GroupedItemsPriceCalculator.Calculate | Pricing/GroupedItemsPriceCalculator.php:44-76 | a falsy currency becomes the default code; the totals and both group arrays are those of the run over all items, and the first failure is raised; on success every item holds the change its pricing offers it, and on failure so does every item up to the first one that cannot be priced, while every item after it that is not one of those keeps its old change |
| GroupedItemsPriceCalculator.PositionsIn | Pricing/GroupedItemsPriceCalculator.php:129 | the listed positions all belong to the group |
| GroupedItemsPriceCalculator.GroupKeys | Pricing/GroupedItemsPriceCalculator.php:107-111 | exactly the groups of the items |
| GroupedItemsPriceCalculator.SuccessfulRunPrefix | Pricing/GroupedItemsPriceCalculator.php:58-70 | a run without failure consists of successful steps |
| GroupedItemsPriceCalculator.RunKeepsGroupBalance | Pricing/GroupedItemsPriceCalculator.php:58-70 | the sum of the group prices minus both totals never changes, failure or not |
| GroupedItemsPriceCalculator.GroupPricesSumToTotals | Pricing/GroupedItemsPriceCalculator.php:62 | from empty group arrays, the group prices add up to `totalPrice + totalRecurringPrice` |
| GroupedItemsPriceCalculator.TotalsAreLineSums | Pricing/GroupedItemsPriceCalculator.php:64-69 | `totalPrice` grows by the one-time line totals and `totalRecurringPrice` by the recurring ones |
| GroupedItemsPriceCalculator.GroupKeysSnoc | Pricing/GroupedItemsPriceCalculator.php:107-111 | one more item adds its own group |
| GroupedItemsPriceCalculator.KeysGrow | Pricing/GroupedItemsPriceCalculator.php:113-128 | when the keys are those passed in plus the groups seen, adding an item's group to both keeps them so |
| GroupedItemsPriceCalculator.RunStepGroupKeys | Pricing/GroupedItemsPriceCalculator.php:113-128 | a successful step of the run follows a successful prefix and adds exactly the item's group to both arrays |
| GroupedItemsPriceCalculator.RunGroupKeys | Pricing/GroupedItemsPriceCalculator.php:113-128 | after a run the groups are those passed in plus those of the items; pre-existing groups are kept |
| GroupedItemsPriceCalculator.RunGroupItems | Pricing/GroupedItemsPriceCalculator.php:129 | each group lists, after the items it had, its items in input order |
| GroupedItemsPriceCalculator.RunGroupPrices | Pricing/GroupedItemsPriceCalculator.php:113-116 | each group's price grows by exactly the totals of its items, accumulating into what was passed in |
| GroupedItemsPriceCalculator.RunKeepsGroupsWellFormed | Pricing/GroupedItemsPriceCalculator.php:130 | after every addition each entry's price equals its group price, failure or not |
| GroupedItemsPriceCalculator.SetPricesOfChanged | Pricing/GroupedItemsPriceCalculator.php:81-93 | items with a recorded change take its new price and the others keep theirs; nothing else changes; the result is true iff a change existed, and is false for plain `CalculableItem`s |
| GroupedItemsPriceCalculator.CommitTwice | Pricing/GroupedItemsPriceCalculator.php:81-93 | a second commit reports the same as the first and leaves every price as the first set it |
| ItemData.UseProductsPriceOf | Pricing/PriceCalculationManager.php:66-69 | the flag is true iff the key is present and loosely true |
| ItemData.IsItemGrossPrice | Pricing/PriceCalculationManager.php:124-133 | true only when `isGrossPrice` is set and decodes to something truthy |
| ItemData.UnsetUneccesaryData | Manager/PriceCalculationManager.php:122-132 | exactly the set `deliveryDate` and `deliveryAddress` entries are removed; every other entry stays as it was |
| ItemData.UnsetUneccesaryDataIdempotent | Pricing/PriceCalculationManager.php:142-152 | cleaning twice is cleaning once |
| ItemData.SetDefaultData | Manager/PriceCalculationManager.php:141-149 | a missing or empty `quantityUnit` becomes `''`; otherwise the map is unchanged, and no other entry ever changes |
| ItemData.SetDefaultDataIdempotent | Pricing/PriceCalculationManager.php:161-169 | setting the default twice is setting it once |
| ItemData.PreparationKeepsFlags | Pricing/PriceCalculationManager.php:66-80 | the cleaned map yields the same product-pricing and gross flags as the raw one |
| ItemData.PrepareItemDataIdempotent | Manager/PriceCalculationManager.php:66-67 | preparing prepared data changes nothing |
| ItemData.GetItemManager | Pricing/PriceCalculationManager.php:178-185 | the item manager if one is set, else "Item manager not set" |
| ItemData.Save | Manager/PriceCalculationManager.php:70 | a new item holding what the store returned, or the store's exception |
| ItemData.PriceItemData | Manager/PriceCalculationManager.php:59-90 | defines one entry as both managers process it: flag, cleaning, save, then the calculator on the stored item; its properties are stated by `PriceItemDataSpec` and `ManagersPriceAlike` |
| ItemData.PriceItemDataSpec | Manager/PriceCalculationManager.php:59-90 | the exception of the first failing step, checked in the order item manager, save, validation; otherwise the unit price and line total the calculator gives the stored item, with the raw data's flags and the original stored price, and no change for an item that records none |
| ItemData.ManagersPriceAlike | Manager/PriceCalculationManager.php:71-85 | writing the flag onto the item changes no price, line total, change or failure |
| ItemData.PriceAllSpec | Pricing/PriceCalculationManager.php:65-107 | a request succeeds iff every entry does, and then holds each entry's result at its position |
| ItemData.PriceAll | Pricing/PriceCalculationManager.php:65-107 | the loop of both managers over the entries; a priced request holds exactly one result per entry |
| ItemData.PriceAllFirstFailure | Pricing/PriceCalculationManager.php:65-107 | a failed request fails with the exception of its first failing entry |
| ItemData.PriceAllPair | Pricing/PriceCalculationManager.php:65-107 | a request of two entries that are both priced holds both results in order (the two-entry case of `PriceAllSpec`) |
| ItemData.PriceAllAdvance | Pricing/PriceCalculationManager.php:65-107 | after a priced prefix, the next entry extends it or ends the request with its exception |
| ItemData.PriceAllFailureStops | Pricing/PriceCalculationManager.php:65-107 | once an entry has failed, the entries after it change nothing |
| ItemData.ItemsHoldSnoc | Pricing/PriceCalculationManager.php:105 | appending a new item for the next entry keeps items and entries in step |
| ItemData.PriceEntry | Pricing/PriceCalculationManager.php:66-89 | one loop body gives exactly the entry's pricing result, and a new item holding the stored state, the unit price, the line total and the change |
| ItemData.PriceNext | Pricing/PriceCalculationManager.php:65-107 | one loop body stated against the whole request: it extends the priced prefix by a new item, or ends the request with its exception |
| PricingManager.TotalsSnoc | Pricing/PriceCalculationManager.php:65-107 | the sums after one more line are the shorter list's sums with that line added |
| PricingManager.Totals | Pricing/PriceCalculationManager.php:91-106 | defines the net, tax and gross sums of the priced lines; the lemmas below state its properties |
| PricingManager.SumOfLineTotalsSnoc | Pricing/PriceCalculationManager.php:106 | appending a line adds its total to the sum |
| PricingManager.BucketTaxSnoc | Pricing/PriceCalculationManager.php:97-102 | appending a line adds its tax to its own bucket and nothing to the others |
| PricingManager.NetTotalIsSumOfLines | Pricing/PriceCalculationManager.php:106 | `totalNetPrice` is the sum of all line totals, tax-free or not |
| PricingManager.TotalPriceIsNetPlusTaxes | Pricing/PriceCalculationManager.php:91-103 | `totalPrice` is `totalNetPrice` plus the sum of all tax buckets |
| PricingManager.TaxfreeTotals | Pricing/PriceCalculationManager.php:94 | a tax-free request has no tax buckets, and its total price is its net total |
| PricingManager.TaxBuckets | Pricing/PriceCalculationManager.php:95-102 | without the tax-free flag there is one bucket per rate string of the lines, holding the tax of exactly those lines (`unitPrice * tax/100 * quantity`) |
| PricingManager.BucketTaxOutsideKeys | Pricing/PriceCalculationManager.php:97-102 | a rate no line has collects no tax |
| PricingManager.AddToTotals | Pricing/PriceCalculationManager.php:91-106 | one pass of the summing code turns the sums of the prefix into those of the prefix plus the line |
| PricingManager.PriceCalculationManager.constructor | Pricing/PriceCalculationManager.php:33-37 | the manager keeps its calculator and has no item manager yet |
| PricingManager.PriceCalculationManager.SetItemManager | Pricing/PriceCalculationManager.php:42-45 | the item manager is replaced |
| PricingManager.PriceCalculationManager.SetupFor | Pricing/PriceCalculationManager.php:75-87 | entries are priced with this manager's calculator and item manager, and without writing the flag |
| PricingManager.PriceCalculationManager.CalculateItemPrices | Pricing/PriceCalculationManager.php:57-115 | succeeds iff every entry is priced, else fails with the first entry's exception; the totals are the net, tax and gross sums of the lines; the returned items are distinct, follow the entries' order and carry their unit price and line total |
| PricingManager.MissingItemManager | Pricing/PriceCalculationManager.php:178-185 | without an item manager any non-empty request fails with "Item manager not set", and an empty one gives zero totals and no taxes |
| RetrievalManager.PriceCalculationManager.constructor | Manager/PriceCalculationManager.php:31-35 | the manager keeps its calculator and has no item manager yet |
| RetrievalManager.PriceCalculationManager.SetItemManager | Manager/PriceCalculationManager.php:40-43 | the item manager is replaced |
| RetrievalManager.PriceCalculationManager.SetupFor | Manager/PriceCalculationManager.php:70-85 | entries are priced with this manager's calculator and item manager, and the flag is written onto each saved item |
| RetrievalManager.PriceCalculationManager.RetrieveItemPrices | Manager/PriceCalculationManager.php:54-95 | succeeds iff every entry is priced, else fails with the first entry's exception; the items are distinct, one per entry in order, each with its unit price, line total and flag |
| RetrievalManager.ManagersPriceRequestsAlike | Manager/PriceCalculationManager.php:54-95 | both managers succeed or fail alike and agree entry by entry on unit price, line total and change; the `Manager/` items hold their entry's flag |
| PricingExamples.EntryIsPrepared | Tests/Functional/Controller/PricingControllerTest.php:188-202 | the test entries are left alone by the map cleaning |
| PricingExamples.EntryIsStored | Tests/Functional/Controller/PricingControllerTest.php:188-202 | an entry with the test's keys (id, name, quantity, unit, flag, price, discount, product id, no tax) is stored with its quantity, price and discount, the 20 % tax of the saved entity, and no product the empty repository could find |
| PricingExamples.StoredEntryIsPriced | Tests/Functional/Controller/PricingControllerTest.php:131-135 | a test entry keeps its own price 21.90, and its line total is price times quantity |
| PricingExamples.EntryIsPriced | Tests/Functional/Controller/PricingControllerTest.php:131-135 | given an item store that keeps a test entry as the stored entry, as the example store does, the whole pricing step gives that entry unit price 21.90 and total 21.90 times its quantity |
| PricingExamples.TestRequestIsPriced | Tests/Functional/Controller/PricingControllerTest.php:109-135 | the two entries of the request are priced in order |
| PricingExamples.TestLinesTotals | Tests/Functional/Controller/PricingControllerTest.php:131-141 | the two priced lines of the test sum to net 65.70, bucket "20" holding 13.14 and total 78.84; tax-free, the total is the net total |
| PricingExamples.TestRequestTotals | Tests/Functional/Controller/PricingControllerTest.php:109-141 | the test request, from entries with the test's keys and a store supplying the 20 % tax, is priced and sums to net 65.70, bucket "20" holding 13.14 and total 78.84; tax-free, the total is the net total |

## Left out

- Floating point: money is exact `real`. The float tolerance of the 13.14 test does not arise.
- Price formatting: `formatPrice` and the group entry's `priceFormatted` call a foreign formatter and are not modelled.
- Foreign collaborators are parameters:
  - the price manager's lookups are finite price tables;
  - the product repository's `find` is a function of the id value;
  - the item manager's `save` is a function of the cleaned data and the locale, and may fail;
  - `json_decode` in `isItemGrossPrice` is a truthiness predicate;
  - PHP's `(string)` of a tax rate is a `rateKey` function.
- Numeric strings and `intval`: a request value counts as a number only when it is a number or a boolean, since PHP's numeric-string coercion is not modelled. So a string quantity such as `"2"` is read as null and the item is rejected with "Attribute quantity must not be null", where PHP would pass the string on and price it as 2. A configured product type id is taken as an integer as is.
- CalculableItemManager.CalculableItemManager.CreateCalculableItem: stores the PHP truthiness of the raw `isRecurringPrice` and `useProductsPrice` values, not the raw values.
- ItemData.PriceItemData: sets the item's `useProductsPrice` to the boolean truthiness of the request's flag. `Manager/PriceCalculationManager.php` passes the raw truthy value on (a `1` stays `1`).
- The addon slot: `createCalculableItem` fills it with a product, and the calculator then reads the addon relation from it. The model keeps the product repository's addon view as a separate lookup, `findAddon`.
- ItemPriceCalculator.PriceChangeFor: compares prices as reals. PHP's strict `!==`, under which an int and an equal float differ, has no counterpart.
- RetrievalManager.PriceCalculationManager.RetrieveItemPrices: the returned items are stated to be distinct, not to be newly allocated; the same holds for PricingManager.PriceCalculationManager.CalculateItemPrices.
- PricingManager.Totals: the tax buckets are a map, so the insertion order of `$taxes`, and with it the key order of the response's taxes object, is not modelled.
- GroupedItemsPriceCalculator.Group: keeps the positions of the group's items in the list, not the item objects.
- Exceptions end the computation. The managers then return nothing, so items saved before the failing entry are not returned. The calculator's side effects before a failure are stated: the group arrays are the run's state up to the failing item, the items up to and including it hold the change their pricing offered them, and the items after it that are not among those keep their old change.
- Items.CalculableItem.SetUseProductsPrice: this method and the price-group getters belong to the item store's entity. The model gives `CalculableItem` those fields and methods, with the answers `CalculableItem` itself gives.
- Shipping costs and pro-rata shipping tax: neither `calculate` nor `calculateItemPrices` computes them, so they have no counterpart here.
- The controller, the dependency-injection configuration and the interfaces hold no calculation. The default currency and the product type map are fields of the calculator's context.
