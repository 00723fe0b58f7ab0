/**
 * The product catalog the calculator reads, and the price manager that
 * supplies special, bulk and addon prices. The price manager belongs to the
 * product bundle; here its three lookups read finite price tables.
 */
module Catalog {
  import opened Wrappers

  /** A product; a product variant points to its parent, so the chain of parents is finite. */
  datatype Product = Product(id: int, typeId: int, areGrossPrices: bool, parent: Option<Product>)

  /** A product-addon relation; `addon` is the product that is sold as the addon. */
  datatype Addon = Addon(id: int, addon: Product)

  /** A price entity of the catalog; its amount may be null. */
  datatype Price = Price(price: Option<real>)

  /**
   * The price manager's price tables: the special price of a product in a
   * currency, the bulk price of a product for a quantity in a currency, and
   * the price of an addon in a currency.
   */
  datatype PriceManager = PriceManager(
    specialPrices: map<(Product, string), Price>,
    bulkPrices: map<(Product, real, string), Price>,
    addonPrices: map<(Addon, string), Price>)
  {
    /** `getSpecialPriceForCurrency`: the table entry, or null when there is none. */
    function SpecialPriceForCurrency(product: Product, currency: string): Option<Price>
    {
      if (product, currency) in specialPrices then Some(specialPrices[(product, currency)]) else None
    }

    /** `getBulkPriceForCurrency`: the table entry, or null when there is none. */
    function BulkPriceForCurrency(product: Product, quantity: real, currency: string): Option<Price>
    {
      if (product, quantity, currency) in bulkPrices then Some(bulkPrices[(product, quantity, currency)]) else None
    }

    /** `getAddonPriceForCurrency`: the table entry, or null when there is none. */
    function AddonPriceForCurrency(addon: Addon, currency: string): Option<Price>
    {
      if (addon, currency) in addonPrices then Some(addonPrices[(addon, currency)]) else None
    }
  }

  /** `$price ? $price->getPrice() : null`. */
  function AmountOf(p: Option<Price>): Option<real>
  {
    if p.Some? then p.value.price else None
  }

  /** The product followed by its parent, its parent's parent, and so on. */
  function Lineage(p: Product): (r: seq<Product>)
    ensures |r| >= 1 && r[0] == p
    decreases p
  {
    [p] + if p.parent.Some? then Lineage(p.parent.value) else []
  }
}
