/**
 * The line item the calculators work on (`CalculableItem`), and the value
 * views of its state that the pure parts of the model read.
 */
module Items {
  import opened Wrappers
  import opened Values
  import opened Catalog

  /** What the calculator reads from an item through its getters. */
  datatype ItemView = ItemView(
    quantity: Option<real>,
    price: Option<real>,
    discount: Option<real>,
    tax: Option<real>,
    currencyCode: Option<string>,
    isRecurringPrice: bool,
    useProductsPrice: bool,
    product: Option<Product>,
    addon: Option<Addon>)

  /** A recorded price change `['from' => ..., 'to' => ...]`. */
  datatype PriceChange = PriceChange(from: real, to: real)

  /**
   * Everything an item is created with. Besides the calculation fields it
   * carries the price group, the group content and whether `setPriceChange`
   * records anything: `CalculableItem` itself answers null, null and no, while
   * the entity the item store hands back implements the same interfaces with
   * real answers.
   */
  datatype StoredItem = StoredItem(
    fields: ItemView,
    priceGroup: Option<string>,
    priceGroupContent: Data,
    recordsPriceChanges: bool)

  class CalculableItem {
    // Fields the item never changes after construction.
    const quantity: Option<real>
    const discount: Option<real>
    const tax: Option<real>
    const currencyCode: Option<string>
    const isRecurringPrice: bool
    const product: Option<Product>
    const addon: Option<Addon>
    const calcPriceGroup: Option<string>
    const calcPriceGroupContent: Data
    const recordsPriceChanges: bool

    // Fields the setters update.
    var price: Option<real>
    var useProductsPrice: bool
    var totalNetPrice: Option<real>
    var priceChange: Option<PriceChange>

    /** The calculation fields, as the getters return them. */
    function View(): ItemView
      reads this
    {
      ItemView(quantity, price, discount, tax, currencyCode, isRecurringPrice,
               useProductsPrice, product, addon)
    }

    /** The whole creation-time state, with the current price and flag. */
    function Stored(): StoredItem
      reads this
    {
      StoredItem(View(), calcPriceGroup, calcPriceGroupContent, recordsPriceChanges)
    }

    /** `new CalculableItem(...)`: every argument lands in its field; no total, no group, no change log. */
    constructor (quantity: Option<real>, price: Option<real>, discount: Option<real>,
                 tax: Option<real>, currencyCode: Option<string>,
                 isRecurringPrice: bool := false, useProductsPrice: bool := false,
                 product: Option<Product> := None, addon: Option<Addon> := None)
      ensures View() == ItemView(quantity, price, discount, tax, currencyCode,
                                 isRecurringPrice, useProductsPrice, product, addon)
      ensures calcPriceGroup.None? && calcPriceGroupContent == map[] && !recordsPriceChanges
      ensures totalNetPrice.None? && priceChange.None?
    {
      this.quantity := quantity;
      this.price := price;
      this.isRecurringPrice := isRecurringPrice;
      this.discount := discount;
      this.tax := tax;
      this.currencyCode := currencyCode;
      this.useProductsPrice := useProductsPrice;
      this.product := product;
      this.addon := addon;
      this.calcPriceGroup := None;
      this.calcPriceGroupContent := map[];
      this.recordsPriceChanges := false;
      this.totalNetPrice := None;
      this.priceChange := None;
    }

    /** The entity an item store creates from the stored state `s`. */
    constructor FromStore(s: StoredItem)
      ensures Stored() == s
      ensures totalNetPrice.None? && priceChange.None?
    {
      quantity := s.fields.quantity;
      price := s.fields.price;
      isRecurringPrice := s.fields.isRecurringPrice;
      discount := s.fields.discount;
      tax := s.fields.tax;
      currencyCode := s.fields.currencyCode;
      useProductsPrice := s.fields.useProductsPrice;
      product := s.fields.product;
      addon := s.fields.addon;
      calcPriceGroup := s.priceGroup;
      calcPriceGroupContent := s.priceGroupContent;
      recordsPriceChanges := s.recordsPriceChanges;
      totalNetPrice := None;
      priceChange := None;
    }

    /** `getPriceChange()`: always null for a `CalculableItem`. */
    function GetPriceChange(): (r: Option<PriceChange>)
      reads this
      ensures !recordsPriceChanges ==> r.None?
      ensures recordsPriceChanges ==> r == priceChange
    {
      if recordsPriceChanges then priceChange else None
    }

    /** `setPrice`: changes the price and nothing else. */
    method SetPrice(price: Option<real>)
      modifies this
      ensures this.price == price
      ensures useProductsPrice == old(useProductsPrice)
      ensures totalNetPrice == old(totalNetPrice) && priceChange == old(priceChange)
    {
      this.price := price;
    }

    /** `setTotalNetPrice`: changes the total net price and nothing else. */
    method SetTotalNetPrice(totalNetPrice: real)
      modifies this
      ensures this.totalNetPrice == Some(totalNetPrice)
      ensures View() == old(View()) && priceChange == old(priceChange)
    {
      this.totalNetPrice := Some(totalNetPrice);
    }

    /** `setUseProductsPrice`, which the item store's entity offers. */
    method SetUseProductsPrice(useProductsPrice: bool)
      modifies this
      ensures View() == old(View()).(useProductsPrice := useProductsPrice)
      ensures totalNetPrice == old(totalNetPrice) && priceChange == old(priceChange)
    {
      this.useProductsPrice := useProductsPrice;
    }

    /** `setPriceChange`: a no-op for a `CalculableItem`; records the change otherwise. */
    method SetPriceChange(from: real, to: real)
      modifies this
      ensures priceChange == if recordsPriceChanges then Some(PriceChange(from, to)) else old(priceChange)
      ensures View() == old(View()) && totalNetPrice == old(totalNetPrice)
    {
      if recordsPriceChanges {
        priceChange := Some(PriceChange(from, to));
      }
    }
  }

  /** The views of a list of items, in order. */
  function Views(items: seq<CalculableItem>): (r: seq<ItemView>)
    reads items
    ensures |r| == |items|
    ensures forall k {:trigger r[k]} :: 0 <= k < |items| ==> r[k] == items[k].View()
  {
    if items == [] then [] else [items[0].View()] + Views(items[1..])
  }

  /** The change logs of `items`, in order. */
  function PriceChanges(items: seq<CalculableItem>): (r: seq<Option<PriceChange>>)
    reads items
    ensures |r| == |items|
    ensures forall k {:trigger r[k]} :: 0 <= k < |items| ==> r[k] == items[k].priceChange
  {
    if items == [] then [] else [items[0].priceChange] + PriceChanges(items[1..])
  }

  /** The stored line totals of `items`, in order. */
  function TotalNetPrices(items: seq<CalculableItem>): (r: seq<Option<real>>)
    reads items
    ensures |r| == |items|
    ensures forall k {:trigger r[k]} :: 0 <= k < |items| ==> r[k] == items[k].totalNetPrice
  {
    if items == [] then [] else [items[0].totalNetPrice] + TotalNetPrices(items[1..])
  }
}
