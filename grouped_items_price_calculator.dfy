/**
 * `GroupedItemsPriceCalculator`: prices a list of items, splits the totals
 * into recurring and one-time, and buckets the line totals by price group in
 * two maps the caller passes by reference.
 */
module GroupedItemsPriceCalculator {
  import opened Wrappers
  import opened Values
  import opened Items
  import opened Exceptions
  import opened ItemPriceCalculator
  import opened Sums

  /** The group an item without a price group is put in. */
  const UNDEFINED_GROUP: string := "undefined"

  /** Keys of a group entry that the group content cannot supply. */
  const RESERVED_KEYS: set<string> := {"items", "price", "priceFormatted"}

  /**
   * A `groupedItems` entry: merged content, the group's items in order (as
   * their positions in the list `calculate` was given), and the group price.
   */
  datatype Group = Group(content: Data, items: seq<nat>, price: Option<real>)

  /** The two by-reference arrays `$groupPrices` and `$groupedItems`. */
  datatype Groups = Groups(prices: map<string, real>, groupedItems: map<string, Group>)

  /** The result array of `calculate`. */
  datatype Totals = Totals(totalPrice: real, totalRecurringPrice: real)

  /** The key an item is grouped under. */
  function PriceGroupKey(item: CalculableItem): (key: string)
    ensures item.calcPriceGroup.None? ==> key == UNDEFINED_GROUP
    ensures item.calcPriceGroup.Some? ==> key == item.calcPriceGroup.value
  {
    if item.calcPriceGroup.None? then UNDEFINED_GROUP else item.calcPriceGroup.value
  }

  /** The accumulated price of group `key` (an absent entry counts as 0). */
  function PriceIn(prices: map<string, real>, key: string): real
  {
    if key in prices then prices[key] else 0.0
  }

  /** The items of group `key` (an absent entry has none). */
  function ItemsOf(groupedItems: map<string, Group>, key: string): seq<nat>
  {
    if key in groupedItems then groupedItems[key].items else []
  }

  /**
   * A group entry as first created: `['items' => []]`, into which a non-empty
   * group content is merged without overriding the keys the calculator sets.
   */
  function NewGroup(item: CalculableItem): Group
  {
    Group(item.calcPriceGroupContent - RESERVED_KEYS, [], None)
  }

  /** A new group has no items and no price, and takes every content entry except the reserved ones. */
  lemma NewGroupShape(item: CalculableItem)
    ensures var g := NewGroup(item);
            && g.items == [] && g.price.None?
            && (forall key :: key in g.content <==> key in item.calcPriceGroupContent && key !in RESERVED_KEYS)
            && (forall key :: key in g.content ==> g.content[key] == item.calcPriceGroupContent[key])
  {
  }

  /** `addPriceToPriceGroup`, for the item at `position`. */
  function AddPriceToPriceGroup(price: real, item: CalculableItem, position: nat, groups: Groups): Groups
  {
    var key := PriceGroupKey(item);
    var prices := groups.prices[key := PriceIn(groups.prices, key) + price];
    var entry := if key in groups.groupedItems then groups.groupedItems[key] else NewGroup(item);
    var entry' := entry.(items := entry.items + [position], price := Some(prices[key]));
    Groups(prices, groups.groupedItems[key := entry'])
  }

  /**
   * `addPriceToPriceGroup` adds `price` to the item's group, creating the
   * entry when it is missing and accumulating into it otherwise, appends the
   * item to the group's items, and copies the group price into the entry;
   * every other group is left as it was.
   */
  lemma AddPriceToPriceGroupSpec(price: real, item: CalculableItem, position: nat, groups: Groups)
    ensures var r := AddPriceToPriceGroup(price, item, position, groups);
            var key := PriceGroupKey(item);
            && r.prices.Keys == groups.prices.Keys + {key}
            && r.groupedItems.Keys == groups.groupedItems.Keys + {key}
            && r.prices[key] == PriceIn(groups.prices, key) + price
            && r.groupedItems[key].items == ItemsOf(groups.groupedItems, key) + [position]
            && r.groupedItems[key].price == Some(r.prices[key])
            && r.groupedItems[key].content ==
                 (if key in groups.groupedItems then groups.groupedItems[key].content else NewGroup(item).content)
    ensures var r := AddPriceToPriceGroup(price, item, position, groups);
            forall other :: other != PriceGroupKey(item) && other in groups.prices ==>
              r.prices[other] == groups.prices[other]
    ensures var r := AddPriceToPriceGroup(price, item, position, groups);
            forall other :: other != PriceGroupKey(item) && other in groups.groupedItems ==>
              r.groupedItems[other] == groups.groupedItems[other]
  {
  }

  /** The running state of `calculate`: the two totals and the group arrays. */
  datatype Acc = Acc(totalPrice: real, totalRecurringPrice: real, groups: Groups)

  /** One item's total goes to its group and to exactly one of the two totals. */
  function AddItem(acc: Acc, item: CalculableItem, position: nat, itemPrice: real): Acc
  {
    var groups := AddPriceToPriceGroup(itemPrice, item, position, acc.groups);
    if item.isRecurringPrice then acc.(totalRecurringPrice := acc.totalRecurringPrice + itemPrice, groups := groups)
    else acc.(totalPrice := acc.totalPrice + itemPrice, groups := groups)
  }

  /** The total net price `calculate` obtains for an item in the currency `currency`. */
  function ItemPrice(ctx: Context, currency: string, v: ItemView): Result<real, Exception>
  {
    ItemTotalNetPrice(ctx, v, Some(currency), Some(v.useProductsPrice), false)
  }

  /** One iteration of `calculate`: the item's total added in, or the exception pricing it raised. */
  function Step(ctx: Context, currency: string, acc: Acc, item: CalculableItem, position: nat, v: ItemView)
    : Result<Acc, Exception>
  {
    match ItemPrice(ctx, currency, v)
    case Err(e) => Err(e)
    case Ok(p) => Ok(AddItem(acc, item, position, p))
  }

  /** The state after items were processed, and the exception that stopped the loop, if any. */
  datatype Run = Run(acc: Acc, failure: Option<Exception>)

  /** The loop of `calculate` over the first `n` of `items`, whose states are `views`, from `acc0`. */
  function CalculateRun(ctx: Context, currency: string, acc0: Acc,
                        items: seq<CalculableItem>, views: seq<ItemView>, n: nat): Run
    requires |items| == |views| && n <= |items|
    decreases n
  {
    if n == 0 then Run(acc0, None)
    else
      var prev := CalculateRun(ctx, currency, acc0, items, views, n - 1);
      if prev.failure.Some? then prev
      else
        match Step(ctx, currency, prev.acc, items[n - 1], n - 1, views[n - 1])
        case Err(e) => Run(prev.acc, Some(e))
        case Ok(acc) => Run(acc, None)
  }

  /** Once an item has failed, the remaining items change nothing. */
  lemma {:induction false} FailureStopsRun(ctx: Context, currency: string, acc0: Acc,
                                           items: seq<CalculableItem>, views: seq<ItemView>, n: nat, m: nat)
    requires |items| == |views| && n <= m <= |items|
    requires CalculateRun(ctx, currency, acc0, items, views, n).failure.Some?
    ensures CalculateRun(ctx, currency, acc0, items, views, m) == CalculateRun(ctx, currency, acc0, items, views, n)
    decreases m
  {
    if n < m {
      FailureStopsRun(ctx, currency, acc0, items, views, n, m - 1);
    }
  }

  /** Processing item `i` after a prefix with no failure: the next state, or the final failed run. */
  lemma RunAdvance(ctx: Context, currency: string, acc0: Acc, items: seq<CalculableItem>, views: seq<ItemView>,
                   i: nat, acc: Acc, next: Result<Acc, Exception>)
    requires |items| == |views| && i < |items|
    requires CalculateRun(ctx, currency, acc0, items, views, i) == Run(acc, None)
    requires next == Step(ctx, currency, acc, items[i], i, views[i])
    ensures next.Ok? ==> CalculateRun(ctx, currency, acc0, items, views, i + 1) == Run(next.value, None)
    ensures next.Err? ==> CalculateRun(ctx, currency, acc0, items, views, |items|) == Run(acc, Some(next.error))
  {
    if next.Err? {
      FailureStopsRun(ctx, currency, acc0, items, views, i + 1, |items|);
    }
  }

  /** The change pricing an item offers it, as it ends up in the item's log. */
  function ChangeAfterPricing(ctx: Context, currency: string, item: CalculableItem, v: ItemView,
                              before: Option<PriceChange>): Option<PriceChange>
  {
    var change := RecordedChange(ctx, v, Some(currency), Some(v.useProductsPrice), false);
    if item.recordsPriceChanges && change.Some? then change else before
  }

  /** Pricing an item a second time leaves its change log as the first pricing left it. */
  lemma ChangeAfterPricingIdempotent(ctx: Context, currency: string, item: CalculableItem, v: ItemView,
                                     before: Option<PriceChange>)
    ensures var once := ChangeAfterPricing(ctx, currency, item, v, before);
            ChangeAfterPricing(ctx, currency, item, v, once) == once
  {
  }

  /** The items still look as `views` and `totals` recorded them. */
  ghost predicate ItemsKept(items: seq<CalculableItem>, views: seq<ItemView>, totals: seq<Option<real>>)
    reads items
  {
    |views| == |items| == |totals| &&
    forall j | 0 <= j < |items| :: items[j].View() == views[j] && items[j].totalNetPrice == totals[j]
  }

  /** The change logs the first `n` items end up with when each is priced once from the log in `before`. */
  ghost function LoggedChanges(ctx: Context, currency: string, items: seq<CalculableItem>, views: seq<ItemView>,
                               before: seq<Option<PriceChange>>, n: nat): (r: seq<Option<PriceChange>>)
    requires |items| == |views| == |before| && n <= |items|
    ensures |r| == n
    decreases n
  {
    if n == 0 then []
    else LoggedChanges(ctx, currency, items, views, before, n - 1)
         + [ChangeAfterPricing(ctx, currency, items[n - 1], views[n - 1], before[n - 1])]
  }

  /** Entry `k` of the logged changes is the change pricing item `k` leaves in its log. */
  lemma {:induction false} LoggedChangesAt(ctx: Context, currency: string, items: seq<CalculableItem>,
                                           views: seq<ItemView>, before: seq<Option<PriceChange>>, n: nat, k: nat)
    requires |items| == |views| == |before| && k < n <= |items|
    ensures LoggedChanges(ctx, currency, items, views, before, n)[k]
            == ChangeAfterPricing(ctx, currency, items[k], views[k], before[k])
    decreases n
  {
    if k < n - 1 {
      LoggedChangesAt(ctx, currency, items, views, before, n - 1, k);
    }
  }

  /** An item that occurs twice was recorded with the same log both times. */
  ghost predicate SnapshotsAgree(items: seq<CalculableItem>, before: seq<Option<PriceChange>>)
  {
    |before| == |items| &&
    forall j, k | 0 <= j < |items| && 0 <= k < |items| && items[j] == items[k] :: before[j] == before[k]
  }

  /**
   * The items before position `i`, and any later position holding one of
   * them again, hold the logs `logged` records for them; every other item
   * still holds the log `before` recorded.
   */
  ghost predicate ChangesLogged(items: seq<CalculableItem>, logged: seq<Option<PriceChange>>,
                                before: seq<Option<PriceChange>>, i: nat)
    reads items
  {
    |logged| == |items| == |before| && i <= |items| &&
    forall j | 0 <= j < |items| ::
      if j < i || items[j] in items[..i] then items[j].priceChange == logged[j]
      else items[j].priceChange == before[j]
  }

  /**
   * Prices the item at `position` for the loop of `calculate`: its total net
   * price, while its change log takes the entry `logged` records for it.
   */
  method PriceAndLog(ctx: Context, currency: string, items: seq<CalculableItem>, position: nat,
                     ghost views: seq<ItemView>, ghost totals: seq<Option<real>>,
                     ghost before: seq<Option<PriceChange>>, ghost logged: seq<Option<PriceChange>>)
    returns (itemPrice: Result<real, Exception>)
    requires position < |items| && ItemsKept(items, views, totals) && SnapshotsAgree(items, before)
    requires logged == LoggedChanges(ctx, currency, items, views, before, |items|)
    requires ChangesLogged(items, logged, before, position)
    modifies items[position]
    ensures itemPrice == ItemPrice(ctx, currency, views[position])
    ensures ItemsKept(items, views, totals)
    ensures ChangesLogged(items, logged, before, position + 1)
  {
    var item := items[position];
    ghost var logBefore := item.priceChange;
    itemPrice := CalculateItemTotalNetPrice(ctx, item, Some(currency), Some(item.useProductsPrice), false);
    assert item.priceChange == ChangeAfterPricing(ctx, currency, item, views[position], logBefore);
    LoggedChangesAt(ctx, currency, items, views, before, |items|, position);
    if logBefore != before[position] {
      ChangeAfterPricingIdempotent(ctx, currency, item, views[position], before[position]);
    }
    forall j | 0 <= j < |items| && items[j] == item
      ensures logged[j] == logged[position]
    {
      LoggedChangesAt(ctx, currency, items, views, before, |items|, j);
    }
  }

  /**
   * How far the loop of `calculate` got after `n` items: without a failure,
   * `acc` is the state after those items; with one, the `n`-th item is the
   * first that failed and the loop ends with `acc` and that failure.
   */
  ghost predicate Progress(ctx: Context, currency: string, acc0: Acc, items: seq<CalculableItem>,
                           views: seq<ItemView>, n: nat, acc: Acc, failure: Option<Exception>)
  {
    |items| == |views| && n <= |items| &&
    if failure.None? then CalculateRun(ctx, currency, acc0, items, views, n) == Run(acc, None)
    else 0 < n && CalculateRun(ctx, currency, acc0, items, views, n - 1).failure.None?
         && ItemPrice(ctx, currency, views[n - 1]).Err?
         && CalculateRun(ctx, currency, acc0, items, views, |items|) == Run(acc, failure)
  }

  /**
   * The body of the loop in `calculate`, applied to the item at `position`
   * after the items before it were processed into `acc` without failure.
   */
  method PriceItem(ctx: Context, currency: string, acc: Acc, items: seq<CalculableItem>, position: nat,
                   ghost acc0: Acc, ghost views: seq<ItemView>, ghost totals: seq<Option<real>>,
                   ghost before: seq<Option<PriceChange>>, ghost logged: seq<Option<PriceChange>>)
    returns (acc': Acc, failure: Option<Exception>)
    requires position < |items| && ItemsKept(items, views, totals) && SnapshotsAgree(items, before)
    requires logged == LoggedChanges(ctx, currency, items, views, before, |items|)
    requires ChangesLogged(items, logged, before, position)
    requires Progress(ctx, currency, acc0, items, views, position, acc, None)
    modifies items[position]
    ensures ItemsKept(items, views, totals)
    ensures ChangesLogged(items, logged, before, position + 1)
    ensures failure.Some? <==> ItemPrice(ctx, currency, views[position]).Err?
    ensures Progress(ctx, currency, acc0, items, views, position + 1, acc', failure)
  {
    var itemPrice := PriceAndLog(ctx, currency, items, position, views, totals, before, logged);
    var r: Result<Acc, Exception>;
    if itemPrice.Err? {
      r := Err(itemPrice.error);
      acc', failure := acc, Some(itemPrice.error);
    } else {
      r := Ok(AddItem(acc, items[position], position, itemPrice.value));
      acc', failure := r.value, None;
    }
    RunAdvance(ctx, currency, acc0, items, views, position, acc, r);
  }

  /**
   * The loop of `calculate`: prices the items in order from `acc0` and stops
   * at the first item that cannot be priced. The items up to the one it
   * stopped after, `stopped`, hold their logged changes; the others keep
   * their old ones.
   */
  method PriceItems(ctx: Context, currency: string, items: seq<CalculableItem>, acc0: Acc,
                    ghost views: seq<ItemView>, ghost totals: seq<Option<real>>,
                    ghost before: seq<Option<PriceChange>>, ghost logged: seq<Option<PriceChange>>)
    returns (run: Run, ghost stopped: nat)
    requires ItemsKept(items, views, totals) && SnapshotsAgree(items, before)
    requires logged == LoggedChanges(ctx, currency, items, views, before, |items|)
    requires ChangesLogged(items, logged, before, 0)
    modifies items
    ensures ItemsKept(items, views, totals)
    ensures run == CalculateRun(ctx, currency, acc0, items, views, |items|)
    ensures stopped <= |items| && ChangesLogged(items, logged, before, stopped)
    ensures run.failure.None? ==> stopped == |items|
    ensures run.failure.Some? ==> 0 < stopped && CalculateRun(ctx, currency, acc0, items, views, stopped - 1).failure.None?
                                  && ItemPrice(ctx, currency, views[stopped - 1]).Err?
  {
    var acc := acc0;
    var failure: Option<Exception> := None;
    var i := 0;
    while i < |items| && failure.None?
      invariant ItemsKept(items, views, totals)
      invariant ChangesLogged(items, logged, before, i)
      invariant Progress(ctx, currency, acc0, items, views, i, acc, failure)
    {
      acc, failure := PriceItem(ctx, currency, acc, items, i, acc0, views, totals, before, logged);
      i := i + 1;
    }
    run, stopped := Run(acc, failure), i;
  }

  /**
   * `calculate`: a null or falsy currency becomes the default currency code;
   * every item is priced with its own product-pricing flag, its total goes to
   * its price group and to the recurring or the one-time total. The group
   * arrays keep the additions made before an item fails validation, and the
   * items up to the failing one hold the changes their pricing offered them,
   * while the items after it keep their old changes.
   */
  method Calculate(ctx: Context, defaultCurrencyCode: string, items: seq<CalculableItem>,
                   groupPrices: map<string, real>, groupedItems: map<string, Group>, currency: Option<string>)
    returns (r: Result<Totals, Exception>, groupPrices': map<string, real>, groupedItems': map<string, Group>)
    modifies items
    ensures ItemsKept(items, old(Views(items)), old(TotalNetPrices(items)))
    ensures var run := CalculateRun(ctx, OrDefault(currency, defaultCurrencyCode),
                                    Acc(0.0, 0.0, Groups(groupPrices, groupedItems)), items, old(Views(items)), |items|);
            && groupPrices' == run.acc.groups.prices
            && groupedItems' == run.acc.groups.groupedItems
            && r == if run.failure.Some? then Err(run.failure.value)
                    else Ok(Totals(run.acc.totalPrice, run.acc.totalRecurringPrice))
    ensures r.Ok? ==> PriceChanges(items) == LoggedChanges(ctx, OrDefault(currency, defaultCurrencyCode), items,
                                                           old(Views(items)), old(PriceChanges(items)), |items|)
    ensures var cur := OrDefault(currency, defaultCurrencyCode);
            r.Err? ==> exists n :: (0 <= n < |items|
              && CalculateRun(ctx, cur, Acc(0.0, 0.0, Groups(groupPrices, groupedItems)), items, old(Views(items)), n).failure.None?
              && ItemPrice(ctx, cur, old(Views(items))[n]).Err?
              && ChangesLogged(items, LoggedChanges(ctx, cur, items, old(Views(items)), old(PriceChanges(items)), |items|),
                               old(PriceChanges(items)), n + 1))
  {
    var cur := if currency.Some? && StringTruthy(currency.value) then currency.value else defaultCurrencyCode;
    ghost var views := Views(items);
    ghost var totals := TotalNetPrices(items);
    ghost var before := PriceChanges(items);
    ghost var logged := LoggedChanges(ctx, cur, items, views, before, |items|);
    var run, stopped := PriceItems(ctx, cur, items, Acc(0.0, 0.0, Groups(groupPrices, groupedItems)),
                                   views, totals, before, logged);
    if run.failure.Some? {
      r := Err(run.failure.value);
      ghost var n := stopped - 1;
      assert n + 1 == stopped;
    } else {
      assert PriceChanges(items) == logged;
      r := Ok(Totals(run.acc.totalPrice, run.acc.totalRecurringPrice));
    }
    groupPrices', groupedItems' := run.acc.groups.prices, run.acc.groups.groupedItems;
  }

  /** The sum of the totals of the first `n` priced items whose recurring flag is `recurring`. */
  function LineSum(ctx: Context, currency: string, items: seq<CalculableItem>, views: seq<ItemView>,
                   recurring: bool, n: nat): real
    requires |items| == |views| && n <= |items|
    decreases n
  {
    if n == 0 then 0.0
    else
      var rest := LineSum(ctx, currency, items, views, recurring, n - 1);
      match ItemPrice(ctx, currency, views[n - 1])
      case Ok(p) => if items[n - 1].isRecurringPrice == recurring then rest + p else rest
      case Err(_) => rest
  }

  /** The sum of the totals of the first `n` priced items of group `key`. */
  function GroupLineSum(ctx: Context, currency: string, items: seq<CalculableItem>, views: seq<ItemView>,
                        key: string, n: nat): real
    requires |items| == |views| && n <= |items|
    decreases n
  {
    if n == 0 then 0.0
    else
      var rest := GroupLineSum(ctx, currency, items, views, key, n - 1);
      match ItemPrice(ctx, currency, views[n - 1])
      case Ok(p) => if PriceGroupKey(items[n - 1]) == key then rest + p else rest
      case Err(_) => rest
  }

  /** The positions, in input order, of the items of group `key` among the first `n`. */
  function PositionsIn(items: seq<CalculableItem>, key: string, n: nat): (r: seq<nat>)
    requires n <= |items|
    ensures forall k :: 0 <= k < |r| ==> r[k] < n && PriceGroupKey(items[r[k]]) == key
    decreases n
  {
    if n == 0 then []
    else PositionsIn(items, key, n - 1) + if PriceGroupKey(items[n - 1]) == key then [n - 1] else []
  }

  /** The groups the first `n` items fall into. */
  function GroupKeys(items: seq<CalculableItem>, n: nat): (r: set<string>)
    requires n <= |items|
    ensures forall k :: 0 <= k < n ==> PriceGroupKey(items[k]) in r
    ensures forall key :: key in r ==> exists k :: 0 <= k < n && PriceGroupKey(items[k]) == key
  {
    set k | 0 <= k < n :: PriceGroupKey(items[k])
  }

  /** Adding an item puts its group among the groups of both arrays and adds no other group. */
  lemma AddItemGroupKeys(acc: Acc, item: CalculableItem, position: nat, itemPrice: real)
    ensures var groups := AddItem(acc, item, position, itemPrice).groups;
            && groups.prices.Keys == acc.groups.prices.Keys + {PriceGroupKey(item)}
            && groups.groupedItems.Keys == acc.groups.groupedItems.Keys + {PriceGroupKey(item)}
  {
    AddPriceToPriceGroupSpec(itemPrice, item, position, acc.groups);
  }

  /** Adding an item appends its position to its own group and to no other. */
  lemma AddItemGroupItems(acc: Acc, item: CalculableItem, position: nat, itemPrice: real)
    ensures var groups := AddItem(acc, item, position, itemPrice).groups;
            forall key :: ItemsOf(groups.groupedItems, key)
                          == ItemsOf(acc.groups.groupedItems, key) + if key == PriceGroupKey(item) then [position] else []
  {
    AddPriceToPriceGroupSpec(itemPrice, item, position, acc.groups);
  }

  /** Adding an item adds its total to its own group's price and to no other. */
  lemma AddItemGroupPrices(acc: Acc, item: CalculableItem, position: nat, itemPrice: real)
    ensures var groups := AddItem(acc, item, position, itemPrice).groups;
            forall key :: PriceIn(groups.prices, key)
                          == PriceIn(acc.groups.prices, key) + if key == PriceGroupKey(item) then itemPrice else 0.0
  {
    AddPriceToPriceGroupSpec(itemPrice, item, position, acc.groups);
  }

  /** A run that ends without failure had no failure in any prefix. */
  lemma SuccessfulRunPrefix(ctx: Context, currency: string, acc0: Acc,
                            items: seq<CalculableItem>, views: seq<ItemView>, n: nat)
    requires |items| == |views| && 0 < n <= |items|
    requires CalculateRun(ctx, currency, acc0, items, views, n).failure.None?
    ensures var prev := CalculateRun(ctx, currency, acc0, items, views, n - 1);
            && prev.failure.None?
            && ItemPrice(ctx, currency, views[n - 1]).Ok?
            && CalculateRun(ctx, currency, acc0, items, views, n).acc
               == AddItem(prev.acc, items[n - 1], n - 1, ItemPrice(ctx, currency, views[n - 1]).value)
  {
  }

  /** The balance of group prices against the two totals. */
  ghost function Balance(acc: Acc): real
  {
    SumValues(acc.groups.prices) - acc.totalPrice - acc.totalRecurringPrice
  }

  /**
   * Adding an item's total to its group and to the total its recurring flag
   * selects, and to no other, keeps the balance.
   */
  lemma AddItemKeepsBalance(acc: Acc, item: CalculableItem, position: nat, itemPrice: real)
    ensures var r := AddItem(acc, item, position, itemPrice);
            && (item.isRecurringPrice ==> r.totalRecurringPrice == acc.totalRecurringPrice + itemPrice
                                          && r.totalPrice == acc.totalPrice)
            && (!item.isRecurringPrice ==> r.totalPrice == acc.totalPrice + itemPrice
                                           && r.totalRecurringPrice == acc.totalRecurringPrice)
    ensures Balance(AddItem(acc, item, position, itemPrice)) == Balance(acc)
  {
    var key := PriceGroupKey(item);
    SumValuesUpdate(acc.groups.prices, key, PriceIn(acc.groups.prices, key) + itemPrice);
  }

  /**
   * Every addition goes to one group and to exactly one total, so the group
   * prices less the two totals stay as they were, failure or not.
   */
  lemma {:induction false} RunKeepsGroupBalance(ctx: Context, currency: string, acc0: Acc,
                                                items: seq<CalculableItem>, views: seq<ItemView>, n: nat)
    requires |items| == |views| && n <= |items|
    ensures Balance(CalculateRun(ctx, currency, acc0, items, views, n).acc) == Balance(acc0)
    decreases n
  {
    if n != 0 {
      RunKeepsGroupBalance(ctx, currency, acc0, items, views, n - 1);
      var prev := CalculateRun(ctx, currency, acc0, items, views, n - 1);
      var price := ItemPrice(ctx, currency, views[n - 1]);
      if prev.failure.None? && price.Ok? {
        AddItemKeepsBalance(prev.acc, items[n - 1], n - 1, price.value);
      }
    }
  }

  /** Starting from empty group arrays, the group prices add up to the two totals together. */
  lemma GroupPricesSumToTotals(ctx: Context, currency: string, items: seq<CalculableItem>, views: seq<ItemView>)
    requires |items| == |views|
    ensures var run := CalculateRun(ctx, currency, Acc(0.0, 0.0, Groups(map[], map[])), items, views, |items|);
            SumValues(run.acc.groups.prices) == run.acc.totalPrice + run.acc.totalRecurringPrice
  {
    RunKeepsGroupBalance(ctx, currency, Acc(0.0, 0.0, Groups(map[], map[])), items, views, |items|);
    var empty: map<string, real> := map[];
    assert SumValues(empty) == 0.0;
  }

  /** After a successful run the two totals are the sums of the one-time and of the recurring line totals. */
  lemma {:induction false} TotalsAreLineSums(ctx: Context, currency: string, acc0: Acc,
                                             items: seq<CalculableItem>, views: seq<ItemView>, n: nat)
    requires |items| == |views| && n <= |items|
    requires CalculateRun(ctx, currency, acc0, items, views, n).failure.None?
    ensures var run := CalculateRun(ctx, currency, acc0, items, views, n);
            && run.acc.totalPrice == acc0.totalPrice + LineSum(ctx, currency, items, views, false, n)
            && run.acc.totalRecurringPrice == acc0.totalRecurringPrice + LineSum(ctx, currency, items, views, true, n)
    decreases n
  {
    if n != 0 {
      SuccessfulRunPrefix(ctx, currency, acc0, items, views, n);
      TotalsAreLineSums(ctx, currency, acc0, items, views, n - 1);
    }
  }

  /** The groups of one more item are those of the shorter prefix and that of the new item. */
  lemma GroupKeysSnoc(items: seq<CalculableItem>, n: nat)
    requires 0 < n <= |items|
    ensures GroupKeys(items, n) == GroupKeys(items, n - 1) + {PriceGroupKey(items[n - 1])}
  {
    forall key | key in GroupKeys(items, n) ensures key in GroupKeys(items, n - 1) + {PriceGroupKey(items[n - 1])} {
      var k :| 0 <= k < n && PriceGroupKey(items[k]) == key;
    }
  }

  /** Keys that were `initial + seen` and gain `key` are `initial` and the seen keys with `key`. */
  lemma KeysGrow(initial: set<string>, before: set<string>, after: set<string>,
                 seen: set<string>, seen': set<string>, key: string)
    requires before == initial + seen && after == before + {key} && seen' == seen + {key}
    ensures after == initial + seen'
  {
  }

  /**
   * A successful step of the run follows a successful prefix and adds the
   * item's group to both arrays and no other group.
   */
  lemma RunStepGroupKeys(ctx: Context, currency: string, acc0: Acc,
                         items: seq<CalculableItem>, views: seq<ItemView>, n: nat)
    requires |items| == |views| && 0 < n <= |items|
    requires CalculateRun(ctx, currency, acc0, items, views, n).failure.None?
    ensures CalculateRun(ctx, currency, acc0, items, views, n - 1).failure.None?
    ensures var prev := CalculateRun(ctx, currency, acc0, items, views, n - 1).acc.groups;
            var next := CalculateRun(ctx, currency, acc0, items, views, n).acc.groups;
            && next.prices.Keys == prev.prices.Keys + {PriceGroupKey(items[n - 1])}
            && next.groupedItems.Keys == prev.groupedItems.Keys + {PriceGroupKey(items[n - 1])}
  {
    SuccessfulRunPrefix(ctx, currency, acc0, items, views, n);
    var prev := CalculateRun(ctx, currency, acc0, items, views, n - 1);
    AddItemGroupKeys(prev.acc, items[n - 1], n - 1, ItemPrice(ctx, currency, views[n - 1]).value);
  }

  /** After a successful run the groups are those there were and those of the items. */
  lemma {:induction false} RunGroupKeys(ctx: Context, currency: string, acc0: Acc,
                                        items: seq<CalculableItem>, views: seq<ItemView>, n: nat)
    requires |items| == |views| && n <= |items|
    requires CalculateRun(ctx, currency, acc0, items, views, n).failure.None?
    ensures var groups := CalculateRun(ctx, currency, acc0, items, views, n).acc.groups;
            && groups.prices.Keys == acc0.groups.prices.Keys + GroupKeys(items, n)
            && groups.groupedItems.Keys == acc0.groups.groupedItems.Keys + GroupKeys(items, n)
    decreases n
  {
    if n != 0 {
      RunStepGroupKeys(ctx, currency, acc0, items, views, n);
      RunGroupKeys(ctx, currency, acc0, items, views, n - 1);
      var prev := CalculateRun(ctx, currency, acc0, items, views, n - 1).acc;
      var next := CalculateRun(ctx, currency, acc0, items, views, n).acc;
      GroupKeysSnoc(items, n);
      var key := PriceGroupKey(items[n - 1]);
      KeysGrow(acc0.groups.prices.Keys, prev.groups.prices.Keys, next.groups.prices.Keys,
               GroupKeys(items, n - 1), GroupKeys(items, n), key);
      KeysGrow(acc0.groups.groupedItems.Keys, prev.groups.groupedItems.Keys, next.groups.groupedItems.Keys,
               GroupKeys(items, n - 1), GroupKeys(items, n), key);
    } else {
      assert GroupKeys(items, n) == {};
    }
  }

  /**
   * After a successful run every group lists, after the positions it had,
   * the positions of its items in input order.
   */
  lemma {:induction false} RunGroupItems(ctx: Context, currency: string, acc0: Acc,
                                         items: seq<CalculableItem>, views: seq<ItemView>, n: nat)
    requires |items| == |views| && n <= |items|
    requires CalculateRun(ctx, currency, acc0, items, views, n).failure.None?
    ensures var groups := CalculateRun(ctx, currency, acc0, items, views, n).acc.groups;
            forall key :: ItemsOf(groups.groupedItems, key) == ItemsOf(acc0.groups.groupedItems, key) + PositionsIn(items, key, n)
    decreases n
  {
    if n != 0 {
      var m := n - 1;
      SuccessfulRunPrefix(ctx, currency, acc0, items, views, n);
      RunGroupItems(ctx, currency, acc0, items, views, m);
      var prev := CalculateRun(ctx, currency, acc0, items, views, m);
      AddItemGroupItems(prev.acc, items[m], m, ItemPrice(ctx, currency, views[m]).value);
      forall key
        ensures PositionsIn(items, key, n) == PositionsIn(items, key, m) + if PriceGroupKey(items[m]) == key then [m] else []
      {
      }
    }
  }

  /** After a successful run every group's price grew by the sum of its items' totals. */
  lemma {:induction false} RunGroupPrices(ctx: Context, currency: string, acc0: Acc,
                                          items: seq<CalculableItem>, views: seq<ItemView>, n: nat)
    requires |items| == |views| && n <= |items|
    requires CalculateRun(ctx, currency, acc0, items, views, n).failure.None?
    ensures var groups := CalculateRun(ctx, currency, acc0, items, views, n).acc.groups;
            forall key :: PriceIn(groups.prices, key)
                          == PriceIn(acc0.groups.prices, key) + GroupLineSum(ctx, currency, items, views, key, n)
    decreases n
  {
    if n != 0 {
      SuccessfulRunPrefix(ctx, currency, acc0, items, views, n);
      RunGroupPrices(ctx, currency, acc0, items, views, n - 1);
      var prev := CalculateRun(ctx, currency, acc0, items, views, n - 1);
      AddItemGroupPrices(prev.acc, items[n - 1], n - 1, ItemPrice(ctx, currency, views[n - 1]).value);
    }
  }

  /** Every group entry carries its group's price, and no content key clashes with the calculator's own. */
  ghost predicate GroupsWellFormed(groups: Groups)
  {
    forall key | key in groups.groupedItems ::
      && key in groups.prices
      && groups.groupedItems[key].price == Some(groups.prices[key])
      && groups.groupedItems[key].content.Keys !! RESERVED_KEYS
  }

  /** Adding an item keeps well-formed group arrays well-formed. */
  lemma AddItemKeepsGroupsWellFormed(acc: Acc, item: CalculableItem, position: nat, itemPrice: real)
    requires GroupsWellFormed(acc.groups)
    ensures GroupsWellFormed(AddItem(acc, item, position, itemPrice).groups)
  {
    AddPriceToPriceGroupSpec(itemPrice, item, position, acc.groups);
  }

  /** A run keeps well-formed group arrays well-formed, failure or not. */
  lemma {:induction false} RunKeepsGroupsWellFormed(ctx: Context, currency: string, acc0: Acc,
                                                    items: seq<CalculableItem>, views: seq<ItemView>, n: nat)
    requires |items| == |views| && n <= |items| && GroupsWellFormed(acc0.groups)
    ensures GroupsWellFormed(CalculateRun(ctx, currency, acc0, items, views, n).acc.groups)
    decreases n
  {
    if n != 0 {
      RunKeepsGroupsWellFormed(ctx, currency, acc0, items, views, n - 1);
      var prev := CalculateRun(ctx, currency, acc0, items, views, n - 1);
      var price := ItemPrice(ctx, currency, views[n - 1]);
      if prev.failure.None? && price.Ok? {
        AddItemKeepsGroupsWellFormed(prev.acc, items[n - 1], n - 1, price.value);
      }
    }
  }

  /**
   * `setPricesOfChanged`: every item with a recorded change gets the change's
   * new price, the others keep theirs; the result says whether any change existed.
   */
  method SetPricesOfChanged(items: seq<CalculableItem>) returns (hasChanged: bool)
    modifies items
    ensures hasChanged <==> exists o | o in items :: old(o.GetPriceChange()).Some?
    ensures forall o | o in items ::
              o.price == if old(o.GetPriceChange()).Some? then Some(old(o.GetPriceChange()).value.to) else old(o.price)
    ensures forall o | o in items ::
              o.priceChange == old(o.priceChange) && o.useProductsPrice == old(o.useProductsPrice)
              && o.totalNetPrice == old(o.totalNetPrice)
    ensures (forall o | o in items :: !o.recordsPriceChanges) ==> !hasChanged
    ensures forall o | o in items :: o.GetPriceChange().Some? ==> o.price == Some(o.GetPriceChange().value.to)
  {
    hasChanged := false;
    var i := 0;
    while i < |items|
      invariant 0 <= i <= |items|
      invariant hasChanged <==> exists o | o in items[..i] :: old(o.GetPriceChange()).Some?
      invariant forall o | o in items ::
                  o.priceChange == old(o.priceChange) && o.useProductsPrice == old(o.useProductsPrice)
                  && o.totalNetPrice == old(o.totalNetPrice)
      invariant forall o | o in items ::
                  o.price == if o in items[..i] && old(o.GetPriceChange()).Some?
                             then Some(old(o.GetPriceChange()).value.to) else old(o.price)
    {
      var item := items[i];
      var priceChange := item.GetPriceChange();
      assert priceChange == old(item.GetPriceChange());
      if priceChange.Some? {
        item.SetPrice(Some(priceChange.value.to));
        hasChanged := true;
      }
      assert items[..i + 1] == items[..i] + [item];
      assert hasChanged <==> exists o | o in items[..i + 1] :: old(o.GetPriceChange()).Some?;
      i := i + 1;
    }
    assert items[..i] == items;
  }

  /** Committing the recorded changes a second time reports the same and leaves every price as the first commit set it. */
  method CommitTwice(items: seq<CalculableItem>) returns (first: bool, second: bool)
    modifies items
    ensures first == second
    ensures forall o | o in items ::
              o.price == if old(o.GetPriceChange()).Some? then Some(old(o.GetPriceChange()).value.to) else old(o.price)
  {
    first := SetPricesOfChanged(items);
    second := SetPricesOfChanged(items);
  }
}
