/**
 * The request of the functional pricing test, priced end to end: two
 * entries of 21.90, for products 1 and 2 at quantities 2 and 1, no
 * discount, stored by an item store that builds the item from the entry and
 * takes the 20 % tax from its saved entity.
 */
module PricingExamples {
  import opened Wrappers
  import opened Values
  import opened Items
  import opened ItemPriceCalculator
  import opened ItemData
  import opened PricingManager
  import CalculableItemManager

  /** An entry of the test request: the keys of `getItemSampleData`, with no tax given. */
  function Entry(productId: int, quantity: real): Data
  {
    map["id" := Num(1.0), "name" := Str("name"), "quantity" := Num(quantity), "quantityUnit" := Str("pc"),
        "useProductsPrice" := Bool(false), "price" := Num(21.9), "discount" := Num(0.0),
        "product" := Arr(map["id" := Num(productId as real)])]
  }

  /** The repository of the example finds nothing. */
  const NoProducts: CalculableItemManager.ProductRepository :=
    CalculableItemManager.ProductRepository(_ => None, _ => None)

  /**
   * The item store of the example: the stored item is the one
   * `createCalculableItem` builds, with the 20 % tax its saved entity carries.
   */
  const Store: ItemStore :=
    ItemStore((data, locale) =>
      Ok(StoredItem(CalculableItemManager.CalculableItemFields(NoProducts, data).(tax := Some(20.0)), None, map[], false)))

  /**
   * How the test request is priced: through the item store `store`, by a
   * manager that does not write the flag, in EUR for the German locale, with
   * no entry's price given as gross.
   */
  function RequestSetup(ctx: Context, store: ItemStore): Setup
  {
    Setup(ctx, Some(store), _ => false, Some("EUR"), "de", false)
  }

  /** The rate key of a 20 % tax. */
  function RateKey(tax: Option<real>): string
  {
    if tax == Some(20.0) then "20" else ""
  }

  /** What the store keeps for an entry of the example. */
  function StoredEntry(quantity: real): StoredItem
  {
    StoredItem(ItemView(Some(quantity), Some(21.9), Some(0.0), Some(20.0), None, false, false, None, None), None, map[], false)
  }

  /** Preparing an entry of the example changes nothing: it has a unit and no delivery data. */
  lemma EntryIsPrepared(productId: int, quantity: real)
    ensures PrepareItemData(Entry(productId, quantity)) == Entry(productId, quantity)
  {
    var data := Entry(productId, quantity);
    assert !IsEmpty(data, QUANTITY_UNIT);
    assert !IsSet(data, DELIVERY_DATE) && !IsSet(data, DELIVERY_ADDRESS);
  }

  /**
   * The store keeps the entry's numbers and adds the 20 % tax; the product id
   * is looked up and not found, and there is no addon.
   */
  lemma EntryIsStored(productId: int, quantity: real)
    ensures Store.save(Entry(productId, quantity), "de") == Ok(StoredEntry(quantity))
  {
    var data := Entry(productId, quantity);
    var product := Arr(map["id" := Num(productId as real)]);
    assert CalculableItemManager.GetProperty(data, "quantity", Null) == Num(quantity);
    assert CalculableItemManager.GetProperty(data, "tax", Null) == Null;
    assert CalculableItemManager.GetProperty(data, "product", Null) == product;
    assert CalculableItemManager.IdOf(product) == Some(Num(productId as real));
    assert NoProducts.find(Num(productId as real)) == None;
    assert CalculableItemManager.GetProperty(data, "addon", Null) == Null;
    assert CalculableItemManager.GetProperty(data, "currencyCode", Null) == Null;
    assert CalculableItemManager.GetProperty(data, "isRecurringPrice", Bool(false)) == Bool(false);
    assert CalculableItemManager.GetProperty(data, "useProductsPrice", Bool(true)) == Bool(false);
  }

  /** The stored entry keeps its own net price; the line total is price times quantity. */
  lemma StoredEntryIsPriced(ctx: Context, quantity: real)
    ensures CalculateItemNetPrice(ctx, StoredEntry(quantity).fields, Some("EUR"), Some(false), false) == Ok(Some(21.9))
    ensures ItemTotalNetPrice(ctx, StoredEntry(quantity).fields, Some("EUR"), Some(false), false) == Ok(21.9 * quantity)
  {
    var v := StoredEntry(quantity).fields;
    assert !UsesProductSource(v, Some(false));
    assert LineTotal(Some(21.9), quantity, Some(0.0)) == 21.9 * quantity;
  }

  /**
   * An entry that the item store keeps as `StoredEntry`, as `Store` does, is
   * priced at its own price, with total price times quantity.
   */
  lemma EntryIsPriced(ctx: Context, store: ItemStore, productId: int, quantity: real)
    requires store.save(Entry(productId, quantity), "de") == Ok(StoredEntry(quantity))
    ensures PriceItemData(RequestSetup(ctx, store), Entry(productId, quantity))
            == Ok(PricedItem(StoredEntry(quantity), Some(21.9), 21.9 * quantity, None))
  {
    EntryIsPrepared(productId, quantity);
    StoredEntryIsPriced(ctx, quantity);
    assert !UseProductsPriceOf(Entry(productId, quantity));
    assert !IsItemGrossPrice(RequestSetup(ctx, store).decodesTruthy, Entry(productId, quantity));
  }

  /** Two entries of the test request are priced one after the other, whatever their quantities. */
  lemma TestRequestIsPriced(ctx: Context, p1: int, q1: real, p2: int, q2: real)
    ensures PriceAll(RequestSetup(ctx, Store), [Entry(p1, q1), Entry(p2, q2)])
            == Ok([PricedItem(StoredEntry(q1), Some(21.9), 21.9 * q1, None), PricedItem(StoredEntry(q2), Some(21.9), 21.9 * q2, None)])
  {
    var s := RequestSetup(ctx, Store);
    EntryIsStored(p1, q1);
    EntryIsStored(p2, q2);
    EntryIsPriced(ctx, Store, p1, q1);
    EntryIsPriced(ctx, Store, p2, q2);
    PriceAllPair(s, Entry(p1, q1), Entry(p2, q2));
  }

  /**
   * The two lines of the test request: without the tax-free flag their net
   * total is 65.70, the only tax bucket "20" holds 13.14 and the total price
   * is 78.84; with the flag the total price is the net total.
   */
  lemma TestLinesTotals()
    ensures var lines := [PricedItem(StoredEntry(2.0), Some(21.9), 43.8, None), PricedItem(StoredEntry(1.0), Some(21.9), 21.9, None)];
            && Totals(lines, false, RateKey) == PriceTotals(65.7, map["20" := 13.14], 78.84)
            && Totals(lines, true, RateKey) == PriceTotals(65.7, map[], 65.7)
  {
    var first := PricedItem(StoredEntry(2.0), Some(21.9), 43.8, None);
    var second := PricedItem(StoredEntry(1.0), Some(21.9), 21.9, None);
    var lines := [first, second];
    assert lines[..1] == [first] && [first][..0] == [];
    assert TaxValue(first) == 8.76 && TaxValue(second) == 4.38;
    assert Totals([first], false, RateKey) == PriceTotals(43.8, map["20" := 8.76], 52.56);
    assert map["20" := 8.76]["20" := 8.76 + 4.38] == map["20" := 13.14];
  }

  /** The request of the test, priced and summed, has the totals of its two lines. */
  lemma TestRequestTotals(ctx: Context)
    ensures var r := PriceAll(RequestSetup(ctx, Store), [Entry(1, 2.0), Entry(2, 1.0)]);
            && r.Ok?
            && Totals(r.value, false, RateKey) == PriceTotals(65.7, map["20" := 13.14], 78.84)
            && Totals(r.value, true, RateKey) == PriceTotals(65.7, map[], 65.7)
  {
    TestRequestIsPriced(ctx, 1, 2.0, 2, 1.0);
    TestLinesTotals();
  }
}
