/**
 * The price calculation manager of `Pricing/`: prices every entry of a
 * request, sums the line totals, and, unless the request is tax-free, adds
 * each line's tax to the total and to the bucket of its tax rate.
 */
module PricingManager {
  import opened Wrappers
  import opened Values
  import opened Items
  import opened Exceptions
  import opened ItemPriceCalculator
  import opened ItemData
  import opened Sums

  /** The three sums `calculateItemPrices` returns beside the items. */
  datatype PriceTotals = PriceTotals(totalNetPrice: real, taxes: map<string, real>, totalPrice: real)

  /** `$itemPrice * $item->getTax() / 100.0 * $item->getCalcQuantity()`, null counting as 0. */
  function TaxValue(line: PricedItem): real
  {
    NumberOrZero(line.unitPrice) * NumberOrZero(line.stored.fields.tax) / 100.0
      * NumberOrZero(line.stored.fields.quantity)
  }

  /** The rate key a line's tax goes to; `rateKey` stands for PHP's `(string)` of the tax. */
  function RateOf(line: PricedItem, rateKey: Option<real> -> string): string
  {
    rateKey(line.stored.fields.tax)
  }

  /** One pass of the summing part of the loop. */
  function AddLine(t: PriceTotals, line: PricedItem, taxfree: bool, rateKey: Option<real> -> string): PriceTotals
  {
    var lineTotal := line.totalNetPrice;
    if taxfree then PriceTotals(t.totalNetPrice + lineTotal, t.taxes, t.totalPrice + lineTotal)
    else
      var taxValue := TaxValue(line);
      var key := RateOf(line, rateKey);
      var bucket := if key in t.taxes then t.taxes[key] + taxValue else taxValue;
      PriceTotals(t.totalNetPrice + lineTotal, t.taxes[key := bucket], t.totalPrice + lineTotal + taxValue)
  }

  /** The sums after the given lines, starting from zero and no taxes. */
  function Totals(lines: seq<PricedItem>, taxfree: bool, rateKey: Option<real> -> string): PriceTotals
    decreases |lines|
  {
    if lines == [] then PriceTotals(0.0, map[], 0.0)
    else AddLine(Totals(lines[..|lines| - 1], taxfree, rateKey), lines[|lines| - 1], taxfree, rateKey)
  }

  /** The sums after one more line are those of the shorter list with the line added. */
  lemma TotalsSnoc(lines: seq<PricedItem>, line: PricedItem, taxfree: bool, rateKey: Option<real> -> string)
    ensures Totals(lines + [line], taxfree, rateKey) == AddLine(Totals(lines, taxfree, rateKey), line, taxfree, rateKey)
  {
    assert (lines + [line])[..|lines|] == lines;
  }

  /** The sum of the line totals. */
  function SumOfLineTotals(lines: seq<PricedItem>): real
    decreases |lines|
  {
    if lines == [] then 0.0 else lines[0].totalNetPrice + SumOfLineTotals(lines[1..])
  }

  /** The tax of the lines whose rate key is `key`. */
  function BucketTax(lines: seq<PricedItem>, key: string, rateKey: Option<real> -> string): real
    decreases |lines|
  {
    if lines == [] then 0.0
    else (if RateOf(lines[0], rateKey) == key then TaxValue(lines[0]) else 0.0) + BucketTax(lines[1..], key, rateKey)
  }

  /** The rate keys of the lines. */
  function RateKeys(lines: seq<PricedItem>, rateKey: Option<real> -> string): set<string>
  {
    set j | 0 <= j < |lines| :: RateOf(lines[j], rateKey)
  }

  /** Appending a line adds its total at the end of the sum. */
  lemma {:induction false} SumOfLineTotalsSnoc(lines: seq<PricedItem>, line: PricedItem)
    ensures SumOfLineTotals(lines + [line]) == SumOfLineTotals(lines) + line.totalNetPrice
    decreases |lines|
  {
    if lines != [] {
      assert (lines + [line])[1..] == lines[1..] + [line];
      SumOfLineTotalsSnoc(lines[1..], line);
    } else {
      assert ([] + [line])[1..] == [];
    }
  }

  /** Appending a line adds its tax to its own bucket and nothing to the others. */
  lemma {:induction false} BucketTaxSnoc(lines: seq<PricedItem>, line: PricedItem, key: string, rateKey: Option<real> -> string)
    ensures BucketTax(lines + [line], key, rateKey)
            == BucketTax(lines, key, rateKey) + (if RateOf(line, rateKey) == key then TaxValue(line) else 0.0)
    decreases |lines|
  {
    if lines != [] {
      assert (lines + [line])[1..] == lines[1..] + [line];
      BucketTaxSnoc(lines[1..], line, key, rateKey);
    } else {
      assert ([] + [line])[1..] == [];
    }
  }

  /** The net total is the sum of the line totals, tax-free or not. */
  lemma {:induction false} NetTotalIsSumOfLines(lines: seq<PricedItem>, taxfree: bool, rateKey: Option<real> -> string)
    ensures Totals(lines, taxfree, rateKey).totalNetPrice == SumOfLineTotals(lines)
    decreases |lines|
  {
    if lines != [] {
      var n := |lines| - 1;
      NetTotalIsSumOfLines(lines[..n], taxfree, rateKey);
      SumOfLineTotalsSnoc(lines[..n], lines[n]);
      assert lines[..n] + [lines[n]] == lines;
    }
  }

  /** The total price is the net total plus every tax bucket. */
  lemma {:induction false} TotalPriceIsNetPlusTaxes(lines: seq<PricedItem>, taxfree: bool, rateKey: Option<real> -> string)
    ensures var t := Totals(lines, taxfree, rateKey);
            t.totalPrice == t.totalNetPrice + SumValues(t.taxes)
    decreases |lines|
  {
    if lines == [] {
      var empty: map<string, real> := map[];
      assert SumValues(empty) == 0.0;
    } else {
      var n := |lines| - 1;
      var t := Totals(lines[..n], taxfree, rateKey);
      TotalPriceIsNetPlusTaxes(lines[..n], taxfree, rateKey);
      if !taxfree {
        var key := RateOf(lines[n], rateKey);
        var bucket := if key in t.taxes then t.taxes[key] + TaxValue(lines[n]) else TaxValue(lines[n]);
        SumValuesUpdate(t.taxes, key, bucket);
      }
    }
  }

  /** A tax-free request has no tax buckets, and its total price is its net total. */
  lemma {:induction false} TaxfreeTotals(lines: seq<PricedItem>, rateKey: Option<real> -> string)
    ensures var t := Totals(lines, true, rateKey);
            t.taxes == map[] && t.totalPrice == t.totalNetPrice
    decreases |lines|
  {
    if lines != [] {
      TaxfreeTotals(lines[..|lines| - 1], rateKey);
    }
  }

  /**
   * Without the tax-free flag there is one bucket per rate key of the lines,
   * holding the tax of exactly the lines with that key.
   */
  lemma {:induction false} TaxBuckets(lines: seq<PricedItem>, rateKey: Option<real> -> string)
    ensures var t := Totals(lines, false, rateKey);
            && t.taxes.Keys == RateKeys(lines, rateKey)
            && forall key :: key in t.taxes ==> t.taxes[key] == BucketTax(lines, key, rateKey)
    decreases |lines|
  {
    if lines != [] {
      var n := |lines| - 1;
      var prefix := lines[..n];
      TaxBuckets(prefix, rateKey);
      assert prefix + [lines[n]] == lines;
      forall key | key in Totals(lines, false, rateKey).taxes
        ensures Totals(lines, false, rateKey).taxes[key] == BucketTax(lines, key, rateKey)
      {
        BucketTaxSnoc(prefix, lines[n], key, rateKey);
        if key !in Totals(prefix, false, rateKey).taxes {
          assert key == RateOf(lines[n], rateKey);
          if BucketTax(prefix, key, rateKey) != 0.0 {
            BucketTaxOutsideKeys(prefix, key, rateKey);
          }
        }
      }
      assert RateKeys(lines, rateKey) == RateKeys(prefix, rateKey) + {RateOf(lines[n], rateKey)} by {
        forall key | key in RateKeys(lines, rateKey) ensures key in RateKeys(prefix, rateKey) + {RateOf(lines[n], rateKey)} {
          var j :| 0 <= j < |lines| && RateOf(lines[j], rateKey) == key;
          if j < n {
            assert prefix[j] == lines[j];
          }
        }
        forall key | key in RateKeys(prefix, rateKey) ensures key in RateKeys(lines, rateKey) {
          var j :| 0 <= j < n && RateOf(prefix[j], rateKey) == key;
          assert lines[j] == prefix[j];
        }
        assert RateOf(lines[n], rateKey) in RateKeys(lines, rateKey);
      }
    }
  }

  /** A key no line has collects no tax. */
  lemma {:induction false} BucketTaxOutsideKeys(lines: seq<PricedItem>, key: string, rateKey: Option<real> -> string)
    requires key !in RateKeys(lines, rateKey)
    ensures BucketTax(lines, key, rateKey) == 0.0
    decreases |lines|
  {
    if lines != [] {
      assert RateOf(lines[0], rateKey) in RateKeys(lines, rateKey);
      assert RateKeys(lines[1..], rateKey) <= RateKeys(lines, rateKey) by {
        forall k | k in RateKeys(lines[1..], rateKey) ensures k in RateKeys(lines, rateKey) {
          var j :| 0 <= j < |lines[1..]| && RateOf(lines[1..][j], rateKey) == k;
          assert lines[1..][j] == lines[j + 1];
        }
      }
      BucketTaxOutsideKeys(lines[1..], key, rateKey);
    }
  }

  /**
   * The summing part of the loop body of `calculateItemPrices`: the line
   * total goes to both totals; unless tax-free, the line's tax goes to the
   * total price and to the bucket of its rate.
   */
  method AddToTotals(totalNetPrice: real, taxes: map<string, real>, totalPrice: real,
                     line: PricedItem, taxfree: bool, rateKey: Option<real> -> string, ghost lines: seq<PricedItem>)
    returns (totalNetPrice': real, taxes': map<string, real>, totalPrice': real)
    requires PriceTotals(totalNetPrice, taxes, totalPrice) == Totals(lines, taxfree, rateKey)
    ensures PriceTotals(totalNetPrice', taxes', totalPrice') == Totals(lines + [line], taxfree, rateKey)
  {
    TotalsSnoc(lines, line, taxfree, rateKey);
    var itemTotalPrice := line.totalNetPrice;
    totalPrice' := totalPrice + itemTotalPrice;
    taxes' := taxes;
    if !taxfree {
      var taxValue := NumberOrZero(line.unitPrice) * NumberOrZero(line.stored.fields.tax) / 100.0
                      * NumberOrZero(line.stored.fields.quantity);
      totalPrice' := totalPrice' + taxValue;
      var tax := rateKey(line.stored.fields.tax);
      if tax in taxes' {
        taxes' := taxes'[tax := taxes'[tax] + taxValue];
      } else {
        taxes' := taxes'[tax := taxValue];
      }
    }
    totalNetPrice' := totalNetPrice + itemTotalPrice;
  }

  /** `PriceCalculationManager`: the item price calculator, and the item manager once one is set. */
  class PriceCalculationManager {
    const ctx: Context
    var itemManager: Option<ItemStore>

    /** `new PriceCalculationManager($itemPriceCalculator)`: no item manager yet. */
    constructor (ctx: Context)
      ensures this.ctx == ctx && itemManager.None?
    {
      this.ctx := ctx;
      itemManager := None;
    }

    /** `setItemManager`: replaces the item manager. */
    method SetItemManager(itemManager: Option<ItemStore>)
      modifies this
      ensures this.itemManager == itemManager
    {
      this.itemManager := itemManager;
    }

    /** How `calculateItemPrices` prices each entry. */
    function SetupFor(decodesTruthy: Value -> bool, currency: Option<string>, locale: string): (r: Setup)
      reads this
      ensures r.ctx == ctx && r.itemManager == itemManager && !r.writesFlag
    {
      Setup(ctx, itemManager, decodesTruthy, currency, locale, false)
    }

    /**
     * `calculateItemPrices`: prices every entry in order and sums the totals;
     * the first exception aborts the whole calculation. The returned items
     * are distinct, one per entry in the order of the entries.
     */
    method CalculateItemPrices(decodesTruthy: Value -> bool, itemsData: seq<Data>, currency: Option<string>,
                               taxfree: bool, locale: string, rateKey: Option<real> -> string)
      returns (r: Result<PriceTotals, Exception>, items: seq<CalculableItem>)
      ensures var lines := PriceAll(SetupFor(decodesTruthy, currency, locale), itemsData);
              && (r.Ok? <==> lines.Ok?)
              && (r.Err? ==> r.error == lines.error)
              && (r.Ok? ==> r.value == Totals(lines.value, taxfree, rateKey) && ItemsHold(items, lines.value))
    {
      var setup := SetupFor(decodesTruthy, currency, locale);
      var totalNetPrice := 0.0;
      var totalPrice := 0.0;
      var taxes: map<string, real> := map[];
      items := [];
      ghost var lines: seq<PricedItem> := [];
      var i := 0;
      while i < |itemsData|
        invariant 0 <= i <= |itemsData|
        invariant PriceAll(setup, itemsData[..i]) == Ok(lines)
        invariant PriceTotals(totalNetPrice, taxes, totalPrice) == Totals(lines, taxfree, rateKey)
        invariant ItemsHold(items, lines)
      {
        var line, item := PriceNext(setup, itemsData, i, lines);
        if line.Err? {
          r := Err(line.error);
          return;
        }
        var priced := line.value;
        totalNetPrice, taxes, totalPrice := AddToTotals(totalNetPrice, taxes, totalPrice, priced, taxfree, rateKey, lines);
        ItemsHoldSnoc(items, lines, item, priced);
        items := items + [item];
        lines := lines + [priced];
        i := i + 1;
      }
      assert itemsData[..i] == itemsData;
      r := Ok(PriceTotals(totalNetPrice, taxes, totalPrice));
    }
  }

  /**
   * Without an item manager any non-empty request fails with "Item manager
   * not set"; an empty one yields zero totals and no taxes.
   */
  lemma MissingItemManager(s: Setup, itemsData: seq<Data>, taxfree: bool, rateKey: Option<real> -> string)
    requires s.itemManager.None?
    ensures itemsData != [] ==> PriceAll(s, itemsData) == Err(PriceCalculationException(ITEM_MANAGER_NOT_SET))
    ensures itemsData == [] ==> PriceAll(s, itemsData) == Ok([])
                                && Totals([], taxfree, rateKey) == PriceTotals(0.0, map[], 0.0)
  {
    PriceAllSpec(s, itemsData);
    if itemsData != [] {
      PriceItemDataSpec(s, itemsData[0]);
      if PriceAll(s, itemsData).Err? {
        PriceAllFirstFailure(s, itemsData);
        var k :| 0 <= k < |itemsData| && PriceItemData(s, itemsData[k]) == Err(PriceAll(s, itemsData).error);
        PriceItemDataSpec(s, itemsData[k]);
      }
    }
  }
}
