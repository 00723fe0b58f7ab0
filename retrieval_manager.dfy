/**
 * The price calculation manager of `Manager/`: like the one of `Pricing/`
 * it saves and prices every entry of a request, but it also writes the
 * product-pricing flag onto each saved item, and it returns only the items.
 */
module RetrievalManager {
  import opened Wrappers
  import opened Values
  import opened Items
  import opened Exceptions
  import opened ItemData

  /** `PriceCalculationManager`: the item price calculator, and the item manager once one is set. */
  class PriceCalculationManager {
    const ctx: ItemPriceCalculator.Context
    var itemManager: Option<ItemStore>

    /** `new PriceCalculationManager($itemPriceCalculator)`: no item manager yet. */
    constructor (ctx: ItemPriceCalculator.Context)
      ensures this.ctx == ctx && itemManager.None?
    {
      this.ctx := ctx;
      itemManager := None;
    }

    /** `setItemManager`: replaces the item manager. */
    method SetItemManager(itemManager: Option<ItemStore>)
      modifies this
      ensures this.itemManager == itemManager
    {
      this.itemManager := itemManager;
    }

    /** How `retrieveItemPrices` prices each entry: like `Pricing/`, but writing the flag. */
    function SetupFor(decodesTruthy: Value -> bool, currency: Option<string>, locale: string): (r: Setup)
      reads this
      ensures r.ctx == ctx && r.itemManager == itemManager && r.writesFlag
    {
      Setup(ctx, itemManager, decodesTruthy, currency, locale, true)
    }

    /**
     * `retrieveItemPrices`: distinct items, one per entry in order, each with
     * the flag of its entry, its unit price and its line total; the first
     * exception aborts the whole request.
     */
    method RetrieveItemPrices(decodesTruthy: Value -> bool, itemsData: seq<Data>, currency: Option<string>, locale: string)
      returns (r: Outcome<Exception>, items: seq<CalculableItem>)
      ensures var lines := PriceAll(SetupFor(decodesTruthy, currency, locale), itemsData);
              && (r.Pass? <==> lines.Ok?)
              && (r.Fail? ==> r.error == lines.error)
              && (r.Pass? ==> ItemsHold(items, lines.value))
    {
      var setup := SetupFor(decodesTruthy, currency, locale);
      items := [];
      ghost var lines: seq<PricedItem> := [];
      var i := 0;
      while i < |itemsData|
        invariant 0 <= i <= |itemsData|
        invariant PriceAll(setup, itemsData[..i]) == Ok(lines)
        invariant ItemsHold(items, lines)
      {
        var line, item := PriceNext(setup, itemsData, i, lines);
        if line.Err? {
          r := Fail(line.error);
          return;
        }
        ItemsHoldSnoc(items, lines, item, line.value);
        items := items + [item];
        lines := lines + [line.value];
        i := i + 1;
      }
      assert itemsData[..i] == itemsData;
      r := Pass;
    }
  }

  /**
   * The two managers price a request alike: both succeed or both fail with
   * the same exception, and entry by entry they agree on unit price, line
   * total and recorded change; only the stored flag may differ, and the
   * `Manager/` one holds the flag of the entry.
   */
  lemma {:induction false} ManagersPriceRequestsAlike(s: Setup, itemsData: seq<Data>)
    ensures var a := PriceAll(s.(writesFlag := false), itemsData);
            var b := PriceAll(s.(writesFlag := true), itemsData);
            && a.Ok? == b.Ok?
            && (a.Err? ==> a.error == b.error)
            && (a.Ok? ==> forall j :: 0 <= j < |itemsData| ==>
                  && a.value[j].unitPrice == b.value[j].unitPrice
                  && a.value[j].totalNetPrice == b.value[j].totalNetPrice
                  && a.value[j].priceChange == b.value[j].priceChange
                  && b.value[j].stored.fields.useProductsPrice == UseProductsPriceOf(itemsData[j]))
    decreases |itemsData|
  {
    if itemsData != [] {
      var n := |itemsData| - 1;
      ManagersPriceRequestsAlike(s, itemsData[..n]);
      ManagersPriceAlike(s, itemsData[n]);
      var a := PriceAll(s.(writesFlag := false), itemsData);
      var b := PriceAll(s.(writesFlag := true), itemsData);
      if a.Ok? {
        forall j | 0 <= j < n
          ensures a.value[j] == PriceAll(s.(writesFlag := false), itemsData[..n]).value[j]
          ensures b.value[j] == PriceAll(s.(writesFlag := true), itemsData[..n]).value[j]
          ensures itemsData[..n][j] == itemsData[j]
        {
        }
      }
    }
  }
}
