/**
 * What both price calculation managers do to one entry of the request's item
 * list before and while pricing it: read the two flags, clean the map, hand
 * it to the item store, and price the stored item.
 */
module ItemData {
  import opened Wrappers
  import opened Values
  import opened Items
  import opened Exceptions
  import opened ItemPriceCalculator

  const USE_PRODUCTS_PRICE: string := "useProductsPrice"
  const IS_GROSS_PRICE: string := "isGrossPrice"
  const DELIVERY_DATE: string := "deliveryDate"
  const DELIVERY_ADDRESS: string := "deliveryAddress"
  const QUANTITY_UNIT: string := "quantityUnit"

  /** Keys that are dropped before saving, when they are set. */
  const DELIVERY_KEYS: set<string> := {DELIVERY_DATE, DELIVERY_ADDRESS}

  /**
   * The item store the managers save request data through: it turns cleaned
   * item data and a locale into a stored item, or fails.
   */
  datatype ItemStore = ItemStore(save: (Data, string) -> Result<StoredItem, Exception>)

  /** `isset($itemData['useProductsPrice']) && $itemData['useProductsPrice'] == true`. */
  function UseProductsPriceOf(data: Data): (r: bool)
    ensures r <==> USE_PRODUCTS_PRICE in data && Truthy(data[USE_PRODUCTS_PRICE])
  {
    IsSet(data, USE_PRODUCTS_PRICE) && Truthy(data[USE_PRODUCTS_PRICE])
  }

  /**
   * `isItemGrossPrice`: the flag is set and decodes to something truthy;
   * `decodesTruthy` stands for `!!json_decode(...)`.
   */
  function IsItemGrossPrice(decodesTruthy: Value -> bool, data: Data): (r: bool)
    ensures r ==> IS_GROSS_PRICE in data && !data[IS_GROSS_PRICE].Null?
    ensures IsSet(data, IS_GROSS_PRICE) ==> (r <==> decodesTruthy(data[IS_GROSS_PRICE]))
  {
    IsSet(data, IS_GROSS_PRICE) && decodesTruthy(data[IS_GROSS_PRICE])
  }

  /**
   * `unsetUneccesaryData`: a set `deliveryDate` or `deliveryAddress` is
   * removed; every other entry, a null delivery entry included, stays.
   */
  function UnsetUneccesaryData(data: Data): (r: Data)
    ensures forall key :: key in r <==> key in data && !(key in DELIVERY_KEYS && IsSet(data, key))
    ensures forall key :: key in r ==> r[key] == data[key]
    ensures !IsSet(r, DELIVERY_DATE) && !IsSet(r, DELIVERY_ADDRESS)
  {
    var withoutDate := if IsSet(data, DELIVERY_DATE) then data - {DELIVERY_DATE} else data;
    if IsSet(withoutDate, DELIVERY_ADDRESS) then withoutDate - {DELIVERY_ADDRESS} else withoutDate
  }

  /** Cleaning cleaned data changes nothing. */
  lemma UnsetUneccesaryDataIdempotent(data: Data)
    ensures UnsetUneccesaryData(UnsetUneccesaryData(data)) == UnsetUneccesaryData(data)
  {
    var once := UnsetUneccesaryData(data);
    assert UnsetUneccesaryData(once).Keys == once.Keys;
  }

  /**
   * `setDefaultData`: a missing or empty `quantityUnit` becomes `''`; no
   * other entry changes, and a non-empty unit is kept.
   */
  function SetDefaultData(data: Data): (r: Data)
    ensures QUANTITY_UNIT in r
    ensures IsEmpty(data, QUANTITY_UNIT) ==> r[QUANTITY_UNIT] == Str("")
    ensures !IsEmpty(data, QUANTITY_UNIT) ==> r == data
    ensures forall key :: key != QUANTITY_UNIT ==> (key in r <==> key in data)
    ensures forall key :: key != QUANTITY_UNIT && key in r ==> r[key] == data[key]
  {
    if IsEmpty(data, QUANTITY_UNIT) then data[QUANTITY_UNIT := Str("")] else data
  }

  /** Setting the default twice gives what setting it once gives. */
  lemma SetDefaultDataIdempotent(data: Data)
    ensures SetDefaultData(SetDefaultData(data)) == SetDefaultData(data)
  {
    if IsEmpty(data, QUANTITY_UNIT) {
      var once := SetDefaultData(data);
      assert IsEmpty(once, QUANTITY_UNIT);
      assert once[QUANTITY_UNIT := Str("")] == once;
    }
  }

  /** The map each manager saves: defaults first, then the delivery entries removed. */
  function PrepareItemData(data: Data): Data
  {
    UnsetUneccesaryData(SetDefaultData(data))
  }

  /**
   * Preparing the data keeps both flags: the product-pricing flag read
   * before and the gross flag read after preparation agree with the raw data.
   */
  lemma PreparationKeepsFlags(decodesTruthy: Value -> bool, data: Data)
    ensures UseProductsPriceOf(PrepareItemData(data)) == UseProductsPriceOf(data)
    ensures IsItemGrossPrice(decodesTruthy, PrepareItemData(data)) == IsItemGrossPrice(decodesTruthy, data)
  {
    var defaulted := SetDefaultData(data);
    assert USE_PRODUCTS_PRICE in defaulted <==> USE_PRODUCTS_PRICE in data;
    assert IS_GROSS_PRICE in defaulted <==> IS_GROSS_PRICE in data;
  }

  /** Prepared data is left alone by a second preparation. */
  lemma {:induction false} PrepareItemDataIdempotent(data: Data)
    ensures PrepareItemData(PrepareItemData(data)) == PrepareItemData(data)
  {
    var defaulted := SetDefaultData(data);
    var prepared := UnsetUneccesaryData(defaulted);
    assert !IsEmpty(defaulted, QUANTITY_UNIT) ==> !IsEmpty(prepared, QUANTITY_UNIT);
    if IsEmpty(prepared, QUANTITY_UNIT) {
      assert prepared[QUANTITY_UNIT] == Str("");
      assert SetDefaultData(prepared) == prepared;
    } else {
      assert SetDefaultData(prepared) == prepared;
    }
    UnsetUneccesaryDataIdempotent(defaulted);
  }

  /** `getItemManager`: the store if one was set, else the exception "Item manager not set". */
  function GetItemManager(itemManager: Option<ItemStore>): (r: Result<ItemStore, Exception>)
    ensures itemManager.None? ==> r == Err(PriceCalculationException(ITEM_MANAGER_NOT_SET))
    ensures itemManager.Some? ==> r == Ok(itemManager.value)
  {
    if itemManager.None? then Err(PriceCalculationException(ITEM_MANAGER_NOT_SET)) else Ok(itemManager.value)
  }

  /** `$itemManager->save($itemData, $locale)`: a new item holding what the store returned. */
  method Save(store: ItemStore, data: Data, locale: string) returns (r: Result<CalculableItem, Exception>)
    ensures r.Ok? <==> store.save(data, locale).Ok?
    ensures r.Err? ==> r.error == store.save(data, locale).error
    ensures r.Ok? ==> fresh(r.value) && r.value.Stored() == store.save(data, locale).value
                      && r.value.totalNetPrice.None? && r.value.priceChange.None?
  {
    var saved := store.save(data, locale);
    if saved.Err? {
      r := Err(saved.error);
    } else {
      var item := new CalculableItem.FromStore(saved.value);
      r := Ok(item);
    }
  }

  /** An item of the request after pricing: what was stored, and what the manager set on it. */
  datatype PricedItem = PricedItem(
    stored: StoredItem,
    unitPrice: Option<real>,
    totalNetPrice: real,
    priceChange: Option<PriceChange>)

  /**
   * What a manager prices a request with: the calculator's context and the
   * item manager it was given (if any), `json_decode` read as truthy or not,
   * the request's currency and locale, and whether the manager writes the
   * product-pricing flag onto the saved item (only Manager/ does).
   */
  datatype Setup = Setup(
    ctx: Context,
    itemManager: Option<ItemStore>,
    decodesTruthy: Value -> bool,
    currency: Option<string>,
    locale: string,
    writesFlag: bool)

  /**
   * One entry of the request as a manager processes it: read the
   * product-pricing flag from the raw data, save the prepared data, and price
   * the stored item with that flag and the gross flag of the prepared data.
   * Unit price and line total both see the stored price.
   */
  function PriceItemData(s: Setup, data: Data): Result<PricedItem, Exception>
  {
    var flag := UseProductsPriceOf(data);
    var prepared := PrepareItemData(data);
    var gross := IsItemGrossPrice(s.decodesTruthy, prepared);
    match GetItemManager(s.itemManager)
    case Err(e) => Err(e)
    case Ok(store) =>
      match store.save(prepared, s.locale)
      case Err(e) => Err(e)
      case Ok(saved) =>
        var stored := if s.writesFlag then saved.(fields := saved.fields.(useProductsPrice := flag)) else saved;
        match CalculateItemNetPrice(s.ctx, stored.fields, s.currency, Some(flag), gross)
        case Err(e) => Err(e)
        case Ok(unitPrice) =>
          var change := RecordedChange(s.ctx, stored.fields, s.currency, Some(flag), gross);
          Ok(PricedItem(stored, unitPrice,
                        ItemTotalNetPrice(s.ctx, stored.fields, s.currency, Some(flag), gross).value,
                        if stored.recordsPriceChanges then change else None))
  }

  /**
   * What pricing one entry yields: the exception of the first step that
   * fails, in the order manager check, save, validation; otherwise the unit
   * price and the line total the calculator computes for the stored item,
   * priced with the flag and the gross flag of the raw data.
   */
  lemma PriceItemDataSpec(s: Setup, data: Data)
    ensures var r := PriceItemData(s, data);
            var saved := if s.itemManager.Some? then s.itemManager.value.save(PrepareItemData(data), s.locale) else Err(PriceCalculationException(ITEM_MANAGER_NOT_SET));
            var flag := UseProductsPriceOf(data);
            var gross := IsItemGrossPrice(s.decodesTruthy, data);
            && (s.itemManager.None? ==> r == Err(PriceCalculationException(ITEM_MANAGER_NOT_SET)))
            && (saved.Err? ==> r == Err(saved.error))
            && (saved.Ok? ==> (r.Ok? <==> ValidateItem(saved.value.fields).Pass?))
            && (saved.Ok? && r.Err? ==> r.error == ValidateItem(saved.value.fields).error)
            && (r.Ok? ==>
                  && saved.Ok?
                  && r.value.stored.fields.useProductsPrice == (if s.writesFlag then flag else saved.value.fields.useProductsPrice)
                  && r.value.stored == saved.value.(fields := r.value.stored.fields)
                  && r.value.stored.fields == saved.value.fields.(useProductsPrice := r.value.stored.fields.useProductsPrice)
                  && Ok(r.value.unitPrice) == CalculateItemNetPrice(s.ctx, r.value.stored.fields, s.currency, Some(flag), gross)
                  && Ok(r.value.totalNetPrice) == ItemTotalNetPrice(s.ctx, r.value.stored.fields, s.currency, Some(flag), gross)
                  && (!r.value.stored.recordsPriceChanges ==> r.value.priceChange.None?))
  {
    PreparationKeepsFlags(s.decodesTruthy, data);
  }

  /**
   * Writing the flag onto the item changes no price: the calculator is
   * always handed the flag explicitly, so both managers compute the same unit
   * price, line total and change for an entry, and fail alike.
   */
  lemma ManagersPriceAlike(s: Setup, data: Data)
    ensures var a := PriceItemData(s.(writesFlag := false), data);
            var b := PriceItemData(s.(writesFlag := true), data);
            && a.Ok? == b.Ok?
            && (a.Err? ==> a.error == b.error)
            && (a.Ok? ==> a.value.unitPrice == b.value.unitPrice && a.value.totalNetPrice == b.value.totalNetPrice
                          && a.value.priceChange == b.value.priceChange
                          && b.value.stored.fields == a.value.stored.fields.(useProductsPrice := UseProductsPriceOf(data)))
  {
  }

  /** Every entry in order; the first exception ends the processing. */
  function PriceAll(s: Setup, itemsData: seq<Data>): (r: Result<seq<PricedItem>, Exception>)
    ensures r.Ok? ==> |r.value| == |itemsData|
    decreases |itemsData|
  {
    if itemsData == [] then Ok([])
    else
      var n := |itemsData| - 1;
      match PriceAll(s, itemsData[..n])
      case Err(e) => Err(e)
      case Ok(lines) =>
        match PriceItemData(s, itemsData[n])
        case Err(e) => Err(e)
        case Ok(line) => Ok(lines + [line])
  }

  /**
   * The list succeeds exactly when every entry does, and then holds each
   * entry's result at its position.
   */
  lemma {:induction false} PriceAllSpec(s: Setup, itemsData: seq<Data>)
    ensures var r := PriceAll(s, itemsData);
            && (r.Ok? <==> forall j :: 0 <= j < |itemsData| ==> PriceItemData(s, itemsData[j]).Ok?)
            && (r.Ok? ==> forall j :: 0 <= j < |itemsData| ==> r.value[j] == PriceItemData(s, itemsData[j]).value)
    decreases |itemsData|
  {
    if itemsData != [] {
      var n := |itemsData| - 1;
      var prefix := itemsData[..n];
      PriceAllSpec(s, prefix);
      assert forall j :: 0 <= j < n ==> prefix[j] == itemsData[j];
    }
  }

  /** A failed list fails with the exception of its first failing entry. */
  lemma {:induction false} PriceAllFirstFailure(s: Setup, itemsData: seq<Data>)
    requires PriceAll(s, itemsData).Err?
    ensures exists k :: 0 <= k < |itemsData| && PriceItemData(s, itemsData[k]) == Err(PriceAll(s, itemsData).error)
                        && forall j :: 0 <= j < k ==> PriceItemData(s, itemsData[j]).Ok?
    decreases |itemsData|
  {
    var n := |itemsData| - 1;
    var prefix := itemsData[..n];
    var r := PriceAll(s, itemsData);
    if PriceAll(s, prefix).Err? {
      PriceAllFirstFailure(s, prefix);
      var k :| 0 <= k < n && PriceItemData(s, prefix[k]) == Err(PriceAll(s, prefix).error)
               && forall j :: 0 <= j < k ==> PriceItemData(s, prefix[j]).Ok?;
      assert forall j :: 0 <= j <= k ==> prefix[j] == itemsData[j];
      assert PriceItemData(s, itemsData[k]) == Err(r.error);
    } else {
      PriceAllSpec(s, prefix);
      assert forall j :: 0 <= j < n ==> prefix[j] == itemsData[j];
      assert PriceItemData(s, itemsData[n]) == Err(r.error);
    }
  }

  /** A request of two entries that are both priced. */
  lemma PriceAllPair(s: Setup, first: Data, second: Data)
    requires PriceItemData(s, first).Ok? && PriceItemData(s, second).Ok?
    ensures PriceAll(s, [first, second]) == Ok([PriceItemData(s, first).value, PriceItemData(s, second).value])
  {
    var request := [first, second];
    assert request[..1] == [first] && request[..1][..0] == [];
    assert PriceAll(s, [first]) == Ok([] + [PriceItemData(s, first).value]);
    assert [] + [PriceItemData(s, first).value] + [PriceItemData(s, second).value]
           == [PriceItemData(s, first).value, PriceItemData(s, second).value];
  }

  /** Pricing a request entry after a prefix that succeeded: the longer prefix, or the final exception. */
  lemma PriceAllAdvance(s: Setup, itemsData: seq<Data>, i: nat, lines: seq<PricedItem>)
    requires i < |itemsData|
    requires PriceAll(s, itemsData[..i]) == Ok(lines)
    ensures PriceItemData(s, itemsData[i]).Ok? ==>
              PriceAll(s, itemsData[..i + 1]) == Ok(lines + [PriceItemData(s, itemsData[i]).value])
    ensures PriceItemData(s, itemsData[i]).Err? ==> PriceAll(s, itemsData) == Err(PriceItemData(s, itemsData[i]).error)
  {
    assert itemsData[..i + 1][..i] == itemsData[..i];
    if PriceItemData(s, itemsData[i]).Err? {
      PriceAllFailureStops(s, itemsData, i + 1);
    }
  }

  /** Once an entry has failed, the entries after it change nothing. */
  lemma {:induction false} PriceAllFailureStops(s: Setup, itemsData: seq<Data>, n: nat)
    requires n <= |itemsData|
    requires PriceAll(s, itemsData[..n]).Err?
    ensures PriceAll(s, itemsData) == PriceAll(s, itemsData[..n])
    decreases |itemsData| - n
  {
    if n < |itemsData| {
      var m := |itemsData| - 1;
      assert itemsData[..m][..n] == itemsData[..n];
      PriceAllFailureStops(s, itemsData[..m], n);
    } else {
      assert itemsData[..n] == itemsData;
    }
  }

  /** The item a manager returns for a priced entry: the stored state, its price replaced by the unit price. */
  predicate Holds(item: CalculableItem, line: PricedItem)
    reads item
  {
    && item.Stored() == line.stored.(fields := line.stored.fields.(price := line.unitPrice))
    && item.totalNetPrice == Some(line.totalNetPrice)
    && item.priceChange == line.priceChange
  }

  /** Item `j` is the result of entry `j`, and no item appears twice. */
  ghost predicate ItemsHold(items: seq<CalculableItem>, lines: seq<PricedItem>)
    reads items
  {
    && |items| == |lines|
    && (forall j :: 0 <= j < |items| ==> Holds(items[j], lines[j]))
    && (forall j, k :: 0 <= j < k < |items| ==> items[j] != items[k])
  }

  /** A new item that is not yet in the list extends what the list holds by its entry. */
  lemma ItemsHoldSnoc(items: seq<CalculableItem>, lines: seq<PricedItem>, item: CalculableItem, line: PricedItem)
    requires ItemsHold(items, lines) && Holds(item, line) && item !in items
    ensures ItemsHold(items + [item], lines + [line])
  {
    var items' := items + [item];
    assert forall j :: 0 <= j < |items| ==> items'[j] == items[j];
  }

  /**
   * One pass of either manager's loop body: save the prepared entry, write
   * the flag when the manager does, compute unit price and line total, and
   * set both on the new item.
   */
  method PriceEntry(s: Setup, data: Data) returns (r: Result<PricedItem, Exception>, item: CalculableItem?)
    ensures r == PriceItemData(s, data)
    ensures r.Ok? ==> item != null && fresh(item) && Holds(item, r.value)
  {
    var flag := UseProductsPriceOf(data);
    var prepared := SetDefaultData(data);
    prepared := UnsetUneccesaryData(prepared);
    item := null;
    var store := GetItemManager(s.itemManager);
    if store.Err? {
      r := Err(store.error);
      return;
    }
    var saved := Save(store.value, prepared, s.locale);
    if saved.Err? {
      r := Err(saved.error);
      return;
    }
    var created := saved.value;
    if s.writesFlag {
      created.SetUseProductsPrice(flag);
    }
    var gross := IsItemGrossPrice(s.decodesTruthy, prepared);
    var unitPrice := CalculateItemNetPrice(s.ctx, created.View(), s.currency, Some(flag), gross);
    if unitPrice.Err? {
      r := Err(unitPrice.error);
      return;
    }
    var stored := created.Stored();
    var total := CalculateItemTotalNetPrice(s.ctx, created, s.currency, Some(flag), gross);
    created.SetPrice(unitPrice.value);
    created.SetTotalNetPrice(total.value);
    r := Ok(PricedItem(stored, unitPrice.value, total.value, created.priceChange));
    item := created;
  }

  /**
   * The loop body shared by both managers, stated against the whole request:
   * after a successful prefix of `i` entries, entry `i` either extends it or
   * ends the request with its exception.
   */
  method PriceNext(s: Setup, itemsData: seq<Data>, i: nat, ghost lines: seq<PricedItem>)
    returns (r: Result<PricedItem, Exception>, item: CalculableItem?)
    requires i < |itemsData| && PriceAll(s, itemsData[..i]) == Ok(lines)
    ensures r.Ok? ==> PriceAll(s, itemsData[..i + 1]) == Ok(lines + [r.value])
    ensures r.Ok? ==> item != null && fresh(item) && Holds(item, r.value)
    ensures r.Err? ==> PriceAll(s, itemsData) == Err(r.error)
  {
    r, item := PriceEntry(s, itemsData[i]);
    PriceAllAdvance(s, itemsData, i, lines);
  }
}
