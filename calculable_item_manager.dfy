/**
 * `CalculableItemManager`: builds a `CalculableItem` from request data,
 * looking the product and the addon up in the product repository by id.
 */
module CalculableItemManager {
  import opened Wrappers
  import opened Values
  import opened Catalog
  import opened Items
  import opened Exceptions
  import opened ItemPriceCalculator

  /**
   * The product repository's `find`, looked up by an id value. The addon
   * slot is filled by the same `find`; `findAddon` is that lookup seen as
   * the addon relation the calculator reads.
   */
  datatype ProductRepository = ProductRepository(
    find: Value -> Option<Product>,
    findAddon: Value -> Option<Addon>)

  /** `getProperty`: the entry when the key exists, even a null one; otherwise the default. */
  function GetProperty(data: Data, key: string, default: Value): (r: Value)
    ensures key in data ==> r == data[key]
    ensures key !in data ==> r == default
  {
    if key in data then data[key] else default
  }

  /** `isset($productData['id'])`: the id of an array with a non-null `id` entry. */
  function IdOf(productData: Value): (r: Option<Value>)
    ensures r.Some? <==> productData.Arr? && IsSet(productData.entries, "id")
    ensures r.Some? ==> r.value == productData.entries["id"] && !r.value.Null?
  {
    if productData.Arr? && IsSet(productData.entries, "id") then Some(productData.entries["id"]) else None
  }

  /** `getProductByData`: the repository is asked only when an id is set. */
  function GetProductByData(repo: ProductRepository, productData: Value): (r: Option<Product>)
    ensures IdOf(productData).None? ==> r.None?
    ensures IdOf(productData).Some? ==> r == repo.find(IdOf(productData).value)
  {
    match IdOf(productData)
    case None => None
    case Some(id) => repo.find(id)
  }

  /** `getProductByData` on the addon data. */
  function GetAddonByData(repo: ProductRepository, addonData: Value): (r: Option<Addon>)
    ensures IdOf(addonData).None? ==> r.None?
    ensures IdOf(addonData).Some? ==> r == repo.findAddon(IdOf(addonData).value)
  {
    match IdOf(addonData)
    case None => None
    case Some(id) => repo.findAddon(id)
  }

  /** A request value used as a number: null stays null, a boolean counts 1 or 0. */
  function NumberOf(v: Value): (r: Option<real>)
    ensures r.None? <==> !(v.Num? || v.Bool?)
    ensures v.Num? ==> r == Some(v.n)
    ensures v.Bool? ==> r == Some(if v.b then 1.0 else 0.0)
  {
    match v
    case Num(n) => Some(n)
    case Bool(b) => Some(if b then 1.0 else 0.0)
    case _ => None
  }

  /** A request value used as a string: only strings are kept. */
  function StringOf(v: Value): (r: Option<string>)
    ensures r.Some? <==> v.Str?
    ensures v.Str? ==> r.value == v.s
  {
    if v.Str? then Some(v.s) else None
  }

  /** The values `createCalculableItem` hands to the item's constructor. */
  function CalculableItemFields(repo: ProductRepository, data: Data): ItemView
  {
    ItemView(
      NumberOf(GetProperty(data, "quantity", Null)),
      NumberOf(GetProperty(data, "price", Null)),
      NumberOf(GetProperty(data, "discount", Null)),
      NumberOf(GetProperty(data, "tax", Null)),
      StringOf(GetProperty(data, "currencyCode", Null)),
      Truthy(GetProperty(data, "isRecurringPrice", Bool(false))),
      Truthy(GetProperty(data, "useProductsPrice", Bool(true))),
      GetProductByData(repo, GetProperty(data, "product", Null)),
      GetAddonByData(repo, GetProperty(data, "addon", Null)))
  }

  /**
   * What an item built from request data looks like: every field comes from
   * its own key; a missing key leaves the field null, a missing
   * `isRecurringPrice` makes the price one-time and a missing
   * `useProductsPrice` asks for the product's price; the product and the
   * addon are found by id or left out.
   */
  lemma CalculableItemFieldsSpec(repo: ProductRepository, data: Data)
    ensures var v := CalculableItemFields(repo, data);
            && ("quantity" !in data ==> v.quantity.None?)
            && ("quantity" in data && data["quantity"].Num? ==> v.quantity == Some(data["quantity"].n))
            && ("price" !in data ==> v.price.None?)
            && ("price" in data && data["price"].Num? ==> v.price == Some(data["price"].n))
            && ("discount" !in data ==> v.discount.None?)
            && ("discount" in data && data["discount"].Num? ==> v.discount == Some(data["discount"].n))
            && ("tax" !in data ==> v.tax.None?)
            && ("tax" in data && data["tax"].Num? ==> v.tax == Some(data["tax"].n))
            && ("currencyCode" !in data ==> v.currencyCode.None?)
            && ("currencyCode" in data && data["currencyCode"].Str? ==> v.currencyCode == Some(data["currencyCode"].s))
            && ("isRecurringPrice" !in data ==> !v.isRecurringPrice)
            && ("isRecurringPrice" in data ==> v.isRecurringPrice == Truthy(data["isRecurringPrice"]))
            && ("useProductsPrice" !in data ==> v.useProductsPrice)
            && ("useProductsPrice" in data ==> v.useProductsPrice == Truthy(data["useProductsPrice"]))
            && ("product" !in data ==> v.product.None?)
            && ("product" in data && IdOf(data["product"]).Some? ==> v.product == repo.find(IdOf(data["product"]).value))
            && ("addon" !in data ==> v.addon.None?)
            && ("addon" in data && IdOf(data["addon"]).Some? ==> v.addon == repo.findAddon(IdOf(data["addon"]).value))
  {
  }

  /**
   * An item built from data without a quantity is refused by the calculator
   * with "Attribute quantity must not be null", whatever else it holds.
   */
  lemma MissingQuantityIsRejected(repo: ProductRepository, data: Data, ctx: Context, currency: Option<string>,
                                  useProductsPrice: Option<bool>, isGrossPrice: bool)
    requires "quantity" !in data || data["quantity"].Null?
    ensures CalculateItemNetPrice(ctx, CalculableItemFields(repo, data), currency, useProductsPrice, isGrossPrice)
            == Err(PriceCalculationException(NotNullMessage("quantity")))
    ensures ItemTotalNetPrice(ctx, CalculableItemFields(repo, data), currency, useProductsPrice, isGrossPrice)
            == Err(PriceCalculationException(NotNullMessage("quantity")))
  {
  }

  /** `CalculableItemManager`: builds items with the product repository it was given. */
  class CalculableItemManager {
    const productRepository: ProductRepository

    /** `new CalculableItemManager($productRepository)`. */
    constructor (productRepository: ProductRepository)
      ensures this.productRepository == productRepository
    {
      this.productRepository := productRepository;
    }

    /**
     * `createCalculableItem`: a new item whose fields are the request's
     * values, with no total, no group and no change log.
     */
    method CreateCalculableItem(data: Data) returns (item: CalculableItem)
      ensures fresh(item)
      ensures item.View() == CalculableItemFields(productRepository, data)
      ensures item.calcPriceGroup.None? && item.calcPriceGroupContent == map[] && !item.recordsPriceChanges
      ensures item.totalNetPrice.None? && item.priceChange.None?
    {
      var quantity := NumberOf(GetProperty(data, "quantity", Null));
      var discount := NumberOf(GetProperty(data, "discount", Null));
      var tax := NumberOf(GetProperty(data, "tax", Null));
      var price := NumberOf(GetProperty(data, "price", Null));
      var isRecurringPrice := Truthy(GetProperty(data, "isRecurringPrice", Bool(false)));
      var currencyCode := StringOf(GetProperty(data, "currencyCode", Null));
      var useProductsPrice := Truthy(GetProperty(data, "useProductsPrice", Bool(true)));
      var product := GetProductByData(productRepository, GetProperty(data, "product", Null));
      var addon := GetAddonByData(productRepository, GetProperty(data, "addon", Null));
      item := new CalculableItem(quantity, price, discount, tax, currencyCode,
                                 isRecurringPrice, useProductsPrice, product, addon);
    }
  }
}
