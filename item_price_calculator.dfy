/**
 * `ItemPriceCalculator`: validates an item, resolves its unit net price from
 * its own price or from its product or addon, and computes the discounted
 * line total.
 */
module ItemPriceCalculator {
  import opened Wrappers
  import opened Values
  import opened Catalog
  import opened Items
  import opened Exceptions

  /**
   * What the calculator is constructed with: the price manager, the default
   * currency (a field the source names `defaultLocale`) and the map from
   * product type keys to type ids.
   */
  datatype Context = Context(
    priceManager: PriceManager,
    defaultCurrency: string,
    productTypesMap: map<string, int>)

  const PRODUCT_VARIANT: string := "PRODUCT_VARIANT"

  /** `getCurrency`: a null or falsy currency falls back to the configured default. */
  function GetCurrency(ctx: Context, currency: Option<string>): (r: string)
    ensures currency.Some? && StringTruthy(currency.value) ==> r == currency.value
    ensures currency.None? || currency.value in {"", "0"} ==> r == ctx.defaultCurrency
  {
    OrDefault(currency, ctx.defaultCurrency)
  }

  /** `validateNotNull`: fails exactly on null. */
  function ValidateNotNull(key: string, value: Option<real>): (r: Outcome<Exception>)
    ensures r.Fail? <==> value.None?
    ensures r.Fail? ==> r.error == PriceCalculationException(NotNullMessage(key))
  {
    if value.None? then Fail(PriceCalculationException(NotNullMessage(key))) else Pass
  }

  /** PHP `$d < 0 || $d > 100`, where null compares as neither. */
  predicate DiscountOutOfRange(discount: Option<real>)
  {
    discount.Some? && (discount.value < 0.0 || discount.value > 100.0)
  }

  /** `validateItem`: quantity must not be null, then the discount must lie in 0..100. */
  function ValidateItem(v: ItemView): (r: Outcome<Exception>)
    ensures r.Pass? <==> v.quantity.Some? && !DiscountOutOfRange(v.discount)
    ensures v.quantity.None? ==> r == Fail(PriceCalculationException(NotNullMessage("quantity")))
    ensures v.quantity.Some? && DiscountOutOfRange(v.discount) ==>
              r == Fail(PriceCalculationException(DISCOUNT_OUT_OF_RANGE))
  {
    match ValidateNotNull("quantity", v.quantity)
    case Fail(e) => Fail(e)
    case Pass =>
      if DiscountOutOfRange(v.discount) then Fail(PriceCalculationException(DISCOUNT_OUT_OF_RANGE))
      else Pass
  }

  /** Gross to net: `price / (100 + tax) * 100`. */
  function ToNet(gross: real, tax: real): (r: real)
    requires tax > 0.0
    ensures r * (100.0 + tax) / 100.0 == gross
    ensures gross > 0.0 ==> 0.0 < r < gross
    ensures gross == 0.0 <==> r == 0.0
  {
    gross / (100.0 + tax) * 100.0
  }

  /** `retrieveProductTypeIdByKey`: the configured id, or null when the key is not configured. */
  function RetrieveProductTypeIdByKey(ctx: Context, key: string): (r: Option<int>)
    ensures r.Some? <==> key in ctx.productTypesMap
    ensures r.Some? ==> r.value == ctx.productTypesMap[key]
  {
    if key in ctx.productTypesMap then Some(ctx.productTypesMap[key]) else None
  }

  /**
   * The choice between special and bulk price: the smaller of the two when
   * both are non-empty, else the special price when it is non-empty, else the
   * bulk price, which may be empty.
   */
  function SelectProductPrice(special: Option<real>, bulk: Option<real>): (r: Option<real>)
    ensures r == special || r == bulk
    ensures NumberTruthy(special) && NumberTruthy(bulk) ==>
              r.Some? && r.value <= special.value && r.value <= bulk.value
    ensures NumberTruthy(special) && !NumberTruthy(bulk) ==> r == special
    ensures !NumberTruthy(special) ==> r == bulk
  {
    if NumberTruthy(special) && NumberTruthy(bulk) then
      if special.value > bulk.value then bulk else special
    else if NumberTruthy(special) then special
    else bulk
  }

  /** The price a product has of its own, before any fallback to its parent. */
  function OwnPriceOfProduct(ctx: Context, product: Product, quantity: real, currency: string): Option<real>
  {
    SelectProductPrice(
      AmountOf(ctx.priceManager.SpecialPriceForCurrency(product, currency)),
      AmountOf(ctx.priceManager.BulkPriceForCurrency(product, quantity, currency)))
  }

  /**
   * A product's own price is its special or its bulk price, and it is
   * non-empty exactly when one of the two is.
   */
  lemma OwnPriceOfProductSpec(ctx: Context, product: Product, quantity: real, currency: string)
    ensures var special := AmountOf(ctx.priceManager.SpecialPriceForCurrency(product, currency));
            var bulk := AmountOf(ctx.priceManager.BulkPriceForCurrency(product, quantity, currency));
            var own := OwnPriceOfProduct(ctx, product, quantity, currency);
            && (own == special || own == bulk)
            && (NumberTruthy(own) <==> NumberTruthy(special) || NumberTruthy(bulk))
  {
  }

  /** The condition under which a product without a price asks its parent. */
  predicate FallsBackToParent(ctx: Context, product: Product)
  {
    Some(product.typeId) == RetrieveProductTypeIdByKey(ctx, PRODUCT_VARIANT) && product.parent.Some?
  }

  /** `getPriceOfProduct`: the product's own price, or its parent's when it is a priceless variant. */
  function GetPriceOfProduct(ctx: Context, product: Product, quantity: real, currency: string): (r: Option<real>)
    ensures NumberTruthy(OwnPriceOfProduct(ctx, product, quantity, currency)) ==>
              r == OwnPriceOfProduct(ctx, product, quantity, currency)
    ensures PRODUCT_VARIANT !in ctx.productTypesMap || product.parent.None? ==>
              r == OwnPriceOfProduct(ctx, product, quantity, currency)
    ensures !NumberTruthy(OwnPriceOfProduct(ctx, product, quantity, currency)) && FallsBackToParent(ctx, product) ==>
              r == GetPriceOfProduct(ctx, product.parent.value, quantity, currency)
    ensures !(!NumberTruthy(OwnPriceOfProduct(ctx, product, quantity, currency)) && FallsBackToParent(ctx, product)) ==>
              r == OwnPriceOfProduct(ctx, product, quantity, currency)
    decreases product
  {
    var own := OwnPriceOfProduct(ctx, product, quantity, currency);
    if !NumberTruthy(own) && FallsBackToParent(ctx, product) then
      GetPriceOfProduct(ctx, product.parent.value, quantity, currency)
    else
      own
  }

  /**
   * `price` is the own price of `line[k]`, every product before it in
   * `line` is a priceless variant that falls back to its parent, and
   * `line[k]` itself does not: it has a price or no parent to ask.
   */
  ghost predicate PriceReachedAt(ctx: Context, line: seq<Product>, k: int, price: Option<real>, quantity: real, currency: string)
  {
    && 0 <= k < |line|
    && price == OwnPriceOfProduct(ctx, line[k], quantity, currency)
    && (NumberTruthy(price) || !FallsBackToParent(ctx, line[k]))
    && forall j :: 0 <= j < k ==>
         !NumberTruthy(OwnPriceOfProduct(ctx, line[j], quantity, currency)) && FallsBackToParent(ctx, line[j])
  }

  /**
   * The price of a product is the own price of one product of its lineage,
   * reached by stepping from priceless variants to their parents with the
   * same quantity and currency.
   */
  lemma {:induction false} PriceComesFromLineage(ctx: Context, product: Product, quantity: real, currency: string)
    ensures exists k :: PriceReachedAt(ctx, Lineage(product), k, GetPriceOfProduct(ctx, product, quantity, currency), quantity, currency)
    decreases product
  {
    var line := Lineage(product);
    var price := GetPriceOfProduct(ctx, product, quantity, currency);
    var own := OwnPriceOfProduct(ctx, product, quantity, currency);
    if !NumberTruthy(own) && FallsBackToParent(ctx, product) {
      var parent := product.parent.value;
      PriceComesFromLineage(ctx, parent, quantity, currency);
      var rest := Lineage(parent);
      assert line == [product] + rest;
      var k :| PriceReachedAt(ctx, rest, k, price, quantity, currency);
      assert line[k + 1] == rest[k];
      forall j | 0 <= j < k + 1
        ensures !NumberTruthy(OwnPriceOfProduct(ctx, line[j], quantity, currency)) && FallsBackToParent(ctx, line[j])
      {
        if j > 0 {
          assert line[j] == rest[j - 1];
        }
      }
      assert PriceReachedAt(ctx, line, k + 1, price, quantity, currency);
    } else {
      assert PriceReachedAt(ctx, line, 0, price, quantity, currency);
    }
  }

  /** A raw price from the product source, with the gross flag of the product it came from. */
  datatype SourcePrice = SourcePrice(price: Option<real>, areGrossPrices: bool)

  /**
   * The addon takes precedence over the product: its own price for the
   * currency if the price manager has one, else the price of the product sold
   * as the addon, and in both cases that product's gross flag.
   */
  function ProductSourcePrice(ctx: Context, v: ItemView, currency: string): (r: SourcePrice)
    requires v.quantity.Some?
    ensures v.addon.Some? ==> r.areGrossPrices == v.addon.value.addon.areGrossPrices
    ensures v.addon.Some? && ctx.priceManager.AddonPriceForCurrency(v.addon.value, currency).Some? ==>
              r.price == ctx.priceManager.AddonPriceForCurrency(v.addon.value, currency).value.price
    ensures v.addon.Some? && ctx.priceManager.AddonPriceForCurrency(v.addon.value, currency).None? ==>
              r.price == GetPriceOfProduct(ctx, v.addon.value.addon, v.quantity.value, currency)
    ensures v.addon.None? && v.product.Some? ==>
              r == SourcePrice(GetPriceOfProduct(ctx, v.product.value, v.quantity.value, currency),
                               v.product.value.areGrossPrices)
    ensures v.addon.None? && v.product.None? ==> r.price.None?
  {
    if v.addon.Some? then
      var addonPrice := ctx.priceManager.AddonPriceForCurrency(v.addon.value, currency);
      var price := if addonPrice.Some? then addonPrice.value.price
                   else GetPriceOfProduct(ctx, v.addon.value.addon, v.quantity.value, currency);
      SourcePrice(price, v.addon.value.addon.areGrossPrices)
    else if v.product.Some? then
      SourcePrice(GetPriceOfProduct(ctx, v.product.value, v.quantity.value, currency), v.product.value.areGrossPrices)
    else
      SourcePrice(None, false)
  }

  /**
   * `getValidProductNetPriceForItem`: an empty source price yields 0; a gross
   * source price is turned into net with the item's own tax when that is positive.
   */
  function ValidProductNetPriceForItem(ctx: Context, v: ItemView, currency: string): (r: real)
    requires v.quantity.Some?
    ensures var s := ProductSourcePrice(ctx, v, currency);
            (!NumberTruthy(s.price) <==> r == 0.0)
            && (NumberTruthy(s.price) && !(s.areGrossPrices && Positive(v.tax)) ==> r == s.price.value)
            && (NumberTruthy(s.price) && s.areGrossPrices && Positive(v.tax) ==>
                  r * (100.0 + v.tax.value) / 100.0 == s.price.value)
  {
    var s := ProductSourcePrice(ctx, v, currency);
    if !NumberTruthy(s.price) then 0.0
    else if s.areGrossPrices && Positive(v.tax) then ToNet(s.price.value, v.tax.value)
    else s.price.value
  }

  /** Whether the unit price comes from the product source rather than the item's own price. */
  predicate UsesProductSource(v: ItemView, useProductsPrice: Option<bool>)
  {
    var use := if useProductsPrice.None? then v.useProductsPrice else useProductsPrice.value;
    use && (v.product.Some? || v.addon.Some?)
  }

  /**
   * `calculateItemNetPrice`: validation comes first; then the product source
   * when product pricing applies, else the item's own price, converted to net
   * only when it is gross and the tax is positive.
   */
  function CalculateItemNetPrice(ctx: Context, v: ItemView, currency: Option<string>,
                                 useProductsPrice: Option<bool>, isGrossPrice: bool): (r: Result<Option<real>, Exception>)
    ensures r.Err? <==> ValidateItem(v).Fail?
    ensures r.Err? ==> r.error == ValidateItem(v).error
    ensures r.Ok? && UsesProductSource(v, useProductsPrice) ==>
              r.value == Some(ValidProductNetPriceForItem(ctx, v, GetCurrency(ctx, currency)))
    ensures r.Ok? && !UsesProductSource(v, useProductsPrice) && !(isGrossPrice && Positive(v.tax)) ==>
              r.value == v.price
    ensures r.Ok? && !UsesProductSource(v, useProductsPrice) && isGrossPrice && Positive(v.tax) ==>
              r.value.Some? && r.value.value * (100.0 + v.tax.value) / 100.0 == NumberOrZero(v.price)
  {
    var cur := GetCurrency(ctx, currency);
    match ValidateItem(v)
    case Fail(e) => Err(e)
    case Pass =>
      if UsesProductSource(v, useProductsPrice) then Ok(Some(ValidProductNetPriceForItem(ctx, v, cur)))
      else if isGrossPrice && Positive(v.tax) then Ok(Some(ToNet(NumberOrZero(v.price), v.tax.value)))
      else Ok(v.price)
  }

  /**
   * The discounted line total `p*q - (p*q/100)*discount`, a null unit price
   * or discount counting as 0.
   */
  function LineTotal(unitPrice: Option<real>, quantity: real, discount: Option<real>): (r: real)
    ensures r == NumberOrZero(unitPrice) * quantity * (100.0 - NumberOrZero(discount)) / 100.0
    ensures NumberOrZero(unitPrice) >= 0.0 && quantity >= 0.0 && 0.0 <= NumberOrZero(discount) <= 100.0 ==>
              0.0 <= r <= NumberOrZero(unitPrice) * quantity
  {
    var itemPrice := NumberOrZero(unitPrice) * quantity;
    var discountAmount := (itemPrice / 100.0) * NumberOrZero(discount);
    itemPrice - discountAmount
  }

  /** The value `calculateItemTotalNetPrice` returns. */
  function ItemTotalNetPrice(ctx: Context, v: ItemView, currency: Option<string>,
                             useProductsPrice: Option<bool>, isGrossPrice: bool): (r: Result<real, Exception>)
    ensures r.Err? <==> ValidateItem(v).Fail?
    ensures r.Err? ==> r.error == ValidateItem(v).error
    ensures r.Ok? ==> v.quantity.Some? && !DiscountOutOfRange(v.discount)
    ensures r.Ok? ==> r.value == LineTotal(CalculateItemNetPrice(ctx, v, currency, useProductsPrice, isGrossPrice).value,
                                           v.quantity.value, v.discount)
  {
    match CalculateItemNetPrice(ctx, v, currency, useProductsPrice, isGrossPrice)
    case Err(e) => Err(e)
    case Ok(unitPrice) => Ok(LineTotal(unitPrice, v.quantity.value, v.discount))
  }

  /** A change is recorded when the stored price is truthy and differs from the resolved one. */
  function PriceChangeFor(stored: Option<real>, resolved: real): (r: Option<PriceChange>)
    ensures r.Some? <==> NumberTruthy(stored) && stored.value != resolved
    ensures r.Some? ==> r.value.from == stored.value && r.value.to == resolved
  {
    if NumberTruthy(stored) && stored.value != resolved then Some(PriceChange(stored.value, resolved)) else None
  }

  /** The change `calculateItemTotalNetPrice` hands to `setPriceChange`, if any. */
  function RecordedChange(ctx: Context, v: ItemView, currency: Option<string>,
                          useProductsPrice: Option<bool>, isGrossPrice: bool): Option<PriceChange>
  {
    match CalculateItemNetPrice(ctx, v, currency, useProductsPrice, isGrossPrice)
    case Err(_) => None
    case Ok(unitPrice) => PriceChangeFor(v.price, NumberOrZero(unitPrice))
  }

  /**
   * `calculateItemTotalNetPrice`: the discounted line total; on the way it
   * offers the item the change from its stored price to the resolved one.
   */
  method CalculateItemTotalNetPrice(ctx: Context, item: CalculableItem, currency: Option<string>,
                                    useProductsPrice: Option<bool>, isGrossPrice: bool)
    returns (r: Result<real, Exception>)
    modifies item
    ensures r == ItemTotalNetPrice(ctx, old(item.View()), currency, useProductsPrice, isGrossPrice)
    ensures item.View() == old(item.View()) && item.totalNetPrice == old(item.totalNetPrice)
    ensures var change := RecordedChange(ctx, old(item.View()), currency, useProductsPrice, isGrossPrice);
            item.priceChange == if item.recordsPriceChanges && change.Some? then change else old(item.priceChange)
  {
    var v := item.View();
    var net := CalculateItemNetPrice(ctx, v, currency, useProductsPrice, isGrossPrice);
    if net.Err? {
      return Err(net.error);
    }
    var change := PriceChangeFor(item.price, NumberOrZero(net.value));
    if change.Some? {
      item.SetPriceChange(change.value.from, change.value.to);
    }
    r := Ok(LineTotal(net.value, item.quantity.value, item.discount));
  }
}
