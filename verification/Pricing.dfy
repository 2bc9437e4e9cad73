/** Pricing a list of order lines: `CalculateTotal` of the order service, which adds up quantities by
    SKU in `int64` before it prices them, and its strict twin in the gateway.  Prices are exact. */
module Pricing {
  import opened Options
  import opened Stock

  datatype Item = Item(sku: string, qty: Int64)

  type Price = p: real | 0.0 <= p witness 0.0

  type Catalog = map<string, Price>

  /** Unicode White_Space, as `strings.TrimSpace` has it. */
  predicate IsSpace(c: char) {
    c in {'\t', '\n', '\U{B}', '\U{C}', '\r', ' ', '\U{85}', '\U{A0}', '\U{1680}', '\U{2028}', '\U{2029}', '\U{202F}', '\U{205F}', '\U{3000}'}
    || '\U{2000}' <= c <= '\U{200A}'
  }

  function Trim(s: string): (r: string)
    ensures |r| <= |s|
    ensures r != "" ==> !IsSpace(r[0]) && !IsSpace(r[|r| - 1])
    ensures r == "" <==> forall c :: c in s ==> IsSpace(c)
    decreases |s|
  {
    if s == "" then ""
    else if IsSpace(s[0]) then Trim(s[1..])
    else if IsSpace(s[|s| - 1]) then Trim(s[..|s| - 1])
    else s
  }

  /** The items with their SKUs trimmed. */
  function Trimmed(items: seq<Item>): (r: seq<Item>)
    ensures |r| == |items|
    ensures forall i :: 0 <= i < |items| ==> r[i] == Item(Trim(items[i].sku), items[i].qty)
  {
    seq(|items|, i requires 0 <= i < |items| => Item(Trim(items[i].sku), items[i].qty))
  }

  /** The items both services price: the rest is skipped by one and refused by the other. */
  predicate Counts(it: Item) {
    it.sku != "" && 0 < it.qty
  }

  // ---------------------------------------------------------------- the two totals

  /** Item by item: the sum of quantity times price over the items that count and have a price. */
  function ItemTotal(items: seq<Item>, catalog: Catalog): real {
    if items == [] then 0.0
    else
      var it := items[|items| - 1];
      ItemTotal(items[..|items| - 1], catalog) + Worth(it, catalog)
  }

  function Worth(it: Item, catalog: Catalog): real {
    if Counts(it) && it.sku in catalog then LineOf(it.qty, catalog[it.sku]) else 0.0
  }

  function LineOf(qty: int, price: real): real {
    qty as real * price
  }

  /** The exact quantity of a SKU. */
  function Qty(items: seq<Item>, sku: string): (q: int)
    ensures 0 <= q
  {
    if items == [] then 0
    else
      var it := items[|items| - 1];
      Qty(items[..|items| - 1], sku) + if Counts(it) && it.sku == sku then it.qty else 0
  }

  function Skus(items: seq<Item>): set<string> {
    if items == [] then {}
    else
      var it := items[|items| - 1];
      Skus(items[..|items| - 1]) + if Counts(it) then {it.sku} else {}
  }

  /** The sum of the values of a map, in any order. */
  ghost function Total(m: map<string, real>): real {
    if m == map[] then 0.0 else var k :| k in m; m[k] + Total(m - {k})
  }

  lemma {:induction false} TotalWithout(m: map<string, real>, k: string)
    requires k in m
    ensures Total(m) == m[k] + Total(m - {k})
    decreases |m|
  {
    var j :| j in m && Total(m) == m[j] + Total(m - {j});
    if j != k {
      TotalWithout(m - {j}, k);
      TotalWithout(m - {k}, j);
      assert m - {j} - {k} == m - {k} - {j};
    }
  }

  lemma TotalPut(m: map<string, real>, k: string, v: real)
    ensures Total(m[k := v]) == Total(m) - (if k in m then m[k] else 0.0) + v
  {
    TotalWithout(m[k := v], k);
    assert m[k := v] - {k} == m - {k};
    if k in m {
      TotalWithout(m, k);
    } else {
      assert m - {k} == m;
    }
  }

  /** What the code adds up for a SKU: the wrapped quantity at the price found. */
  function Line(items: seq<Item>, catalog: Catalog, sku: string): real
    requires sku in catalog
  {
    LineOf(Wrap(Qty(items, sku)), catalog[sku])
  }

  function Exact(items: seq<Item>, catalog: Catalog, sku: string): real
    requires sku in catalog
  {
    LineOf(Qty(items, sku), catalog[sku])
  }

  ghost function Lines(items: seq<Item>, catalog: Catalog, skus: set<string>): map<string, real> {
    map sku | sku in skus && sku in catalog :: Line(items, catalog, sku)
  }

  /** SKU by SKU, as both services compute it. */
  ghost function SkuTotal(items: seq<Item>, catalog: Catalog): real {
    Total(Lines(items, catalog, Skus(items)))
  }

  // ---------------------------------------------------------------- they agree

  /** The exact quantities of some SKUs. */
  ghost function Qtys(items: seq<Item>, skus: set<string>): map<string, int> {
    map sku | sku in skus :: Qty(items, sku)
  }

  ghost function Valued(q: map<string, int>, catalog: Catalog): map<string, real> {
    map sku | sku in q && sku in catalog :: LineOf(q[sku], catalog[sku])
  }

  ghost function Exacts(items: seq<Item>, catalog: Catalog, skus: set<string>): map<string, real> {
    Valued(Qtys(items, skus), catalog)
  }

  lemma SkusOneMore(items: seq<Item>, n: nat)
    requires n < |items|
    ensures Skus(items[..n + 1]) == Skus(items[..n]) + if Counts(items[n]) then {items[n].sku} else {}
  {
    assert items[..n + 1][..n] == items[..n];
  }

  lemma {:induction false} QtyOfOthers(items: seq<Item>, sku: string)
    requires sku !in Skus(items)
    ensures Qty(items, sku) == 0
    decreases |items|
  {
    if items != [] {
      var n := |items| - 1;
      SkusOneMore(items, n);
      assert items[..n + 1] == items;
      QtyOfOthers(items[..n], sku);
    }
  }

  lemma PriceOfSum(a: int, b: int, p: real)
    ensures (a + b) as real * p == a as real * p + b as real * p
  {
  }

  lemma QtysOneMore(items: seq<Item>)
    requires items != []
    ensures var n := |items| - 1;
            var it := items[n];
            var before := Qtys(items[..n], Skus(items[..n]));
            Qtys(items, Skus(items)) == if Counts(it) then before[it.sku := Qty(items, it.sku)] else before
  {
  }

  lemma ValuedPut(q: map<string, int>, k: string, v: int, catalog: Catalog)
    ensures Valued(q[k := v], catalog) ==
            if k in catalog then Valued(q, catalog)[k := LineOf(v, catalog[k])] else Valued(q, catalog)
  {
  }

  /** One more item changes the line of its own SKU at most. */
  lemma ExactsOneMore(items: seq<Item>, catalog: Catalog)
    requires items != []
    ensures var n := |items| - 1;
            var it := items[n];
            var before := Exacts(items[..n], catalog, Skus(items[..n]));
            Exacts(items, catalog, Skus(items)) ==
            if Counts(it) && it.sku in catalog then before[it.sku := Exact(items, catalog, it.sku)] else before
  {
    var n := |items| - 1;
    QtysOneMore(items);
    ValuedPut(Qtys(items[..n], Skus(items[..n])), items[n].sku, Qty(items, items[n].sku), catalog);
  }

  lemma LineBefore(items: seq<Item>, catalog: Catalog, sku: string)
    requires sku in catalog
    ensures var before := Exacts(items, catalog, Skus(items));
            (if sku in before then before[sku] else 0.0) == Exact(items, catalog, sku)
  {
    if sku !in Skus(items) {
      QtyOfOthers(items, sku);
    }
  }

  lemma ExactGrows(items: seq<Item>, catalog: Catalog)
    requires items != [] && Counts(items[|items| - 1]) && items[|items| - 1].sku in catalog
    ensures var it := items[|items| - 1];
            Exact(items, catalog, it.sku) == Exact(items[..|items| - 1], catalog, it.sku) + Worth(it, catalog)
  {
    var it := items[|items| - 1];
    PriceOfSum(Qty(items[..|items| - 1], it.sku), it.qty, catalog[it.sku]);
  }

  lemma ExactTotalGrows(items: seq<Item>, catalog: Catalog)
    requires items != []
    ensures var n := |items| - 1;
            Total(Exacts(items, catalog, Skus(items))) == Total(Exacts(items[..n], catalog, Skus(items[..n]))) + Worth(items[n], catalog)
  {
    var n := |items| - 1;
    var it := items[n];
    var before := Exacts(items[..n], catalog, Skus(items[..n]));
    ExactsOneMore(items, catalog);
    if Counts(it) && it.sku in catalog {
      var e := Exact(items, catalog, it.sku);
      TotalPut(before, it.sku, e);
      LineBefore(items[..n], catalog, it.sku);
      ExactGrows(items, catalog);
    }
  }

  lemma {:induction false} ExactTotal(items: seq<Item>, catalog: Catalog)
    ensures Total(Exacts(items, catalog, Skus(items))) == ItemTotal(items, catalog)
    decreases |items|
  {
    if items != [] {
      ExactTotal(items[..|items| - 1], catalog);
      ExactTotalGrows(items, catalog);
    }
  }

  /** The SKUs whose added-up quantity an `int64` cannot hold, and whose price shows it. */
  function Overflowing(items: seq<Item>, catalog: Catalog): set<string> {
    set sku | sku in Skus(items) && sku in catalog && catalog[sku] != 0.0 && MAX_INT64 < Qty(items, sku)
  }

  lemma LineIsExact(items: seq<Item>, catalog: Catalog, sku: string)
    requires sku in Skus(items) && sku in catalog
    ensures Line(items, catalog, sku) <= Exact(items, catalog, sku)
    ensures sku in Overflowing(items, catalog) <==> Line(items, catalog, sku) != Exact(items, catalog, sku)
  {
    var q, p := Qty(items, sku), catalog[sku];
    var gap := (q - Wrap(q)) as real;
    assert Exact(items, catalog, sku) == Line(items, catalog, sku) + gap * p;
    assert 0.0 <= gap;
    assert gap == 0.0 <==> q <= MAX_INT64;
    ProductIsZero(gap, p);
  }

  lemma ProductIsZero(x: real, y: real)
    requires 0.0 <= x && 0.0 <= y
    ensures 0.0 <= x * y && (x * y == 0.0 <==> x == 0.0 || y == 0.0)
  {
  }

  /** Lower lines make a lower total, and a strictly lower one if any is strictly lower. */
  lemma {:induction false} TotalBelow(m: map<string, real>, m': map<string, real>)
    requires m.Keys == m'.Keys && forall k :: k in m ==> m[k] <= m'[k]
    ensures Total(m) <= Total(m')
    ensures Total(m) == Total(m') <==> m == m'
    decreases |m|
  {
    if m == map[] {
      assert m' == map[];
    } else {
      var k :| k in m;
      TotalWithout(m, k);
      TotalWithout(m', k);
      TotalBelow(m - {k}, m' - {k});
      assert m == (m - {k})[k := m[k]] && m' == (m' - {k})[k := m'[k]];
    }
  }

  /** Aggregated pricing equals item-by-item pricing exactly when no priced SKU of the order adds up
      to more than an `int64` holds; otherwise it is too low. */
  lemma AggregationIsExactUnlessItOverflows(items: seq<Item>, catalog: Catalog)
    ensures SkuTotal(items, catalog) == ItemTotal(items, catalog) <==> Overflowing(items, catalog) == {}
    ensures SkuTotal(items, catalog) <= ItemTotal(items, catalog)
  {
    ExactTotal(items, catalog);
    var m, m' := Lines(items, catalog, Skus(items)), Exacts(items, catalog, Skus(items));
    forall sku | sku in m ensures m[sku] <= m'[sku] && (sku in Overflowing(items, catalog) <==> m[sku] != m'[sku]) {
      LineIsExact(items, catalog, sku);
    }
    TotalBelow(m, m');
    if Overflowing(items, catalog) == {} {
      assert m == m';
    }
    if m == m' {
      assert forall sku :: sku in Overflowing(items, catalog) ==> sku in m;
    }
  }

  /** Two lines of the largest quantity are priced as minus two units. */
  lemma AggregationCanOverflow(sku: string) returns (items: seq<Item>, catalog: Catalog)
    requires sku != ""
    ensures SkuTotal(items, catalog) == -2.0 && ItemTotal(items, catalog) == 2.0 * MAX_INT64 as real
  {
    var it := Item(sku, MAX_INT64);
    items, catalog := [it, it], map[sku := 1.0];
    assert items[..1] == [it] && [it][..0] == [];
    assert Qty([it], sku) == MAX_INT64 && ItemTotal([it], catalog) == MAX_INT64 as real;
    assert Qty(items, sku) == 2 * MAX_INT64;
    assert Wrap(2 * MAX_INT64) == -2;
    assert it in items;
    var m := Lines(items, catalog, Skus(items));
    assert m == map[sku := -2.0];
    TotalWithout(m, sku);
    assert m - {sku} == map[];
  }

  // ---------------------------------------------------------------- the code

  /** The catalog service as its clients find it: not answering, or with the products it has. */
  type Shop = Option<Catalog>

  /** BulkGetProducts: the products it has among those asked for, or an error exactly when it does
      not answer. */
  method BulkGetProducts(skus: seq<string>, shop: Shop) returns (resp: Option<seq<(string, Price)>>)
    ensures resp.Some? <==> shop.Some?
    ensures resp.Some? ==> forall i :: 0 <= i < |resp.value| ==> resp.value[i].0 in shop.value && shop.value[resp.value[i].0] == resp.value[i].1
    ensures resp.Some? ==> forall sku :: sku in skus && sku in shop.value ==> exists i :: 0 <= i < |resp.value| && resp.value[i].0 == sku
  {
    if shop.None? {
      return None;
    }
    var catalog := shop.value;
    var products: seq<(string, Price)> := [];
    for n := 0 to |skus|
      invariant forall i :: 0 <= i < |products| ==> products[i].0 in catalog && catalog[products[i].0] == products[i].1
      invariant forall k :: 0 <= k < n && skus[k] in catalog ==> exists i :: 0 <= i < |products| && products[i].0 == skus[k]
    {
      if skus[n] in catalog {
        ghost var before := products;
        products := products + [(skus[n], catalog[skus[n]])];
        assert products[|before|].0 == skus[n];
        assert forall i :: 0 <= i < |before| ==> products[i] == before[i];
      }
    }
    resp := Some(products);
  }

  /** `priceBySKU`. */
  method PriceBySku(products: seq<(string, Price)>, ghost catalog: Catalog) returns (prices: Catalog)
    requires forall i :: 0 <= i < |products| ==> products[i].0 in catalog && catalog[products[i].0] == products[i].1
    ensures forall sku :: sku in prices ==> sku in catalog && prices[sku] == catalog[sku]
    ensures forall i :: 0 <= i < |products| ==> products[i].0 in prices
  {
    prices := map[];
    for n := 0 to |products|
      invariant forall sku :: sku in prices ==> sku in catalog && prices[sku] == catalog[sku]
      invariant forall i :: 0 <= i < n ==> products[i].0 in prices
    {
      prices := prices[products[n].0 := products[n].1];
    }
  }

  /** `qtyBySKU` and `skus` after some items. */
  ghost predicate Grouped(items: seq<Item>, qtyBySku: map<string, int>, skus: seq<string>) {
    && qtyBySku.Keys == Skus(items)
    && (forall sku :: sku in qtyBySku ==> qtyBySku[sku] == Wrap(Qty(items, sku)))
    && (forall sku :: sku in skus <==> sku in qtyBySku)
  }

  /** Go's `m[sku] += qty` on a `map[string]int64`, where a missing key reads as zero. */
  function AddTo(m: map<string, int>, sku: string, qty: int): map<string, int> {
    m[sku := Wrap((if sku in m then m[sku] else 0) + qty)]
  }

  lemma GroupTurn(items: seq<Item>, n: nat, qtyBySku: map<string, int>, skus: seq<string>)
    requires n < |items| && Grouped(items[..n], qtyBySku, skus)
    ensures !Counts(items[n]) ==> Grouped(items[..n + 1], qtyBySku, skus)
    ensures Counts(items[n]) && items[n].sku in qtyBySku ==> Grouped(items[..n + 1], AddTo(qtyBySku, items[n].sku, items[n].qty), skus)
    ensures Counts(items[n]) && items[n].sku !in qtyBySku ==>
              Grouped(items[..n + 1], AddTo(qtyBySku, items[n].sku, items[n].qty), skus + [items[n].sku])
  {
    var it := items[n];
    assert items[..n + 1][..n] == items[..n];
    SkusOneMore(items, n);
    if Counts(it) && it.sku !in qtyBySku {
      QtyOfOthers(items[..n], it.sku);
    }
    WrapSum(Qty(items[..n], it.sku), it.qty);
  }

  /** The total when the SKUs in `left` are still to be priced. */
  ghost predicate Priced(items: seq<Item>, catalog: Catalog, left: set<string>, total: real) {
    left <= Skus(items) && total == Total(Lines(items, catalog, Skus(items) - left))
  }

  lemma PriceTurn(items: seq<Item>, catalog: Catalog, left: set<string>, total: real, sku: string)
    requires Priced(items, catalog, left, total) && sku in left
    ensures Priced(items, catalog, left - {sku}, if sku in catalog then total + Line(items, catalog, sku) else total)
  {
    var m, m' := Lines(items, catalog, Skus(items) - left), Lines(items, catalog, Skus(items) - (left - {sku}));
    if sku in catalog {
      assert m' == m[sku := Line(items, catalog, sku)];
      TotalPut(m, sku, Line(items, catalog, sku));
    } else {
      assert m' == m;
    }
  }

  /** `range qtyBySKU`: the order in which Go visits the keys is not determined. */
  method AddUp(ghost items: seq<Item>, qtyBySku: map<string, int>, prices: Catalog, ghost skus: seq<string>, ghost catalog: Catalog)
    returns (total: real, missing: set<string>)
    requires Grouped(items, qtyBySku, skus)
    requires forall sku :: sku in qtyBySku ==> (sku in prices <==> sku in catalog)
    requires forall sku :: sku in prices ==> sku in catalog && prices[sku] == catalog[sku]
    ensures total == SkuTotal(items, catalog)
    ensures missing == Skus(items) - catalog.Keys
  {
    total, missing := 0.0, {};
    var left := qtyBySku.Keys;
    assert Lines(items, catalog, {}) == map[];
    assert Skus(items) - left == {};
    while left != {}
      invariant Priced(items, catalog, left, total)
      invariant missing == Skus(items) - left - catalog.Keys
      decreases left
    {
      var sku :| sku in left;
      PriceTurn(items, catalog, left, total, sku);
      if sku in prices {
        total := total + LineOf(qtyBySku[sku], prices[sku]);
      } else {
        missing := missing + {sku};
      }
      left := left - {sku};
    }
    assert Skus(items) - {} == Skus(items);
  }

  /** The first loop of the order service. */
  method Aggregate(items: seq<Item>) returns (qtyBySku: map<string, int>, skus: seq<string>)
    ensures Grouped(Trimmed(items), qtyBySku, skus)
  {
    qtyBySku, skus := map[], [];
    ghost var trimmed := Trimmed(items);
    for n := 0 to |items|
      invariant Grouped(trimmed[..n], qtyBySku, skus)
    {
      GroupTurn(trimmed, n, qtyBySku, skus);
      var sku := Trim(items[n].sku);
      if sku == "" || items[n].qty <= 0 {
        continue;
      }
      if sku !in qtyBySku {
        skus := skus + [sku];
      }
      qtyBySku := AddTo(qtyBySku, sku, items[n].qty);
    }
    assert trimmed[..|items|] == trimmed;
  }

  /** What the order service answers, by whether it has a catalog client and the catalog answers. */
  ghost function OrderTotal(items: seq<Item>, hasClient: bool, shop: Shop): real {
    if hasClient && shop.Some? then SkuTotal(Trimmed(items), shop.value) else 0.0
  }

  /** The order service. */
  method CalculateTotal(items: seq<Item>, hasClient: bool, shop: Shop) returns (total: real)
    ensures total == OrderTotal(items, hasClient, shop)
  {
    if |items| == 0 || !hasClient {
      NothingCosts(Trimmed(items), shop);
      return 0.0;
    }
    ghost var trimmed := Trimmed(items);
    var qtyBySku, skus := Aggregate(items);
    if |skus| == 0 {
      NothingCosts(trimmed, shop);
      return 0.0;
    }
    var resp := BulkGetProducts(skus, shop);
    if resp.None? {
      return 0.0;
    }
    var prices := PriceBySku(resp.value, shop.value);
    var missing;
    total, missing := AddUp(trimmed, qtyBySku, prices, skus, shop.value);
  }

  lemma NothingCosts(items: seq<Item>, shop: Shop)
    ensures Skus(items) == {} && shop.Some? ==> SkuTotal(items, shop.value) == 0.0
  {
    if Skus(items) == {} && shop.Some? {
      NothingCounts(items, shop.value);
    }
  }

  lemma NothingCounts(items: seq<Item>, catalog: Catalog)
    requires Skus(items) == {}
    ensures SkuTotal(items, catalog) == 0.0
  {
    assert Lines(items, catalog, Skus(items)) == map[];
  }

  // ---------------------------------------------------------------- the gateway

  /** A line as the gateway receives it. */
  datatype WebItem = WebItem(sku: string, productId: string, qty: Int64)

  /** The gateway falls back to the product id and does not trim. */
  function Named(items: seq<WebItem>): (r: seq<Item>)
    ensures |r| == |items|
    ensures forall i :: 0 <= i < |items| ==>
              r[i] == Item(if items[i].sku == "" then items[i].productId else items[i].sku, items[i].qty)
  {
    seq(|items|, i requires 0 <= i < |items| => Item(if items[i].sku == "" then items[i].productId else items[i].sku, items[i].qty))
  }

  datatype Answer = NoItems | BadItem | CatalogDown | UnknownSkus(missing: set<string>) | Charged(total: real)

  /** The first loop of the gateway, which stops at the first item it refuses. */
  method StrictAggregate(items: seq<WebItem>) returns (bad: bool, qtyBySku: map<string, int>, skus: seq<string>)
    ensures bad <==> exists i :: 0 <= i < |items| && !Counts(Named(items)[i])
    ensures !bad ==> Grouped(Named(items), qtyBySku, skus)
  {
    qtyBySku, skus := map[], [];
    ghost var named := Named(items);
    for n := 0 to |items|
      invariant Grouped(named[..n], qtyBySku, skus)
      invariant forall i :: 0 <= i < n ==> Counts(named[i])
    {
      GroupTurn(named, n, qtyBySku, skus);
      var sku := items[n].sku;
      if sku == "" {
        sku := items[n].productId;
      }
      if sku == "" || items[n].qty <= 0 {
        assert !Counts(named[n]);
        return true, qtyBySku, skus;
      }
      if sku !in qtyBySku {
        skus := skus + [sku];
      }
      qtyBySku := AddTo(qtyBySku, sku, items[n].qty);
    }
    assert named[..|items|] == named;
    bad := false;
  }

  /** The five answers of the gateway, and exactly when each is given. */
  ghost predicate GatewayAnswer(items: seq<WebItem>, shop: Shop, answer: Answer) {
    var named := Named(items);
    if items == [] then answer == NoItems
    else if exists i :: 0 <= i < |items| && !Counts(named[i]) then answer == BadItem
    else if shop.None? then answer == CatalogDown
    else if !(Skus(named) <= shop.value.Keys) then answer == UnknownSkus(Skus(named) - shop.value.Keys)
    else answer == Charged(SkuTotal(named, shop.value))
  }

  method OrdersCalculate(items: seq<WebItem>, shop: Shop) returns (answer: Answer)
    ensures GatewayAnswer(items, shop, answer)
  {
    if |items| == 0 {
      return NoItems;
    }
    ghost var named := Named(items);
    var bad, qtyBySku, skus := StrictAggregate(items);
    if bad {
      return BadItem;
    }
    var resp := BulkGetProducts(skus, shop);
    if resp.None? {
      return CatalogDown;
    }
    var prices := PriceBySku(resp.value, shop.value);
    var total, missing := AddUp(named, qtyBySku, prices, skus, shop.value);
    if |missing| > 0 {
      assert exists sku :: sku in missing && sku in Skus(named) && sku !in shop.value.Keys;
      return UnknownSkus(missing);
    }
    assert missing == {};
    assert forall sku :: sku in Skus(named) && sku !in shop.value.Keys ==> sku in missing;
    return Charged(total);
  }

  /** Whenever the gateway prices a list whose SKUs are already trimmed, the order service answers the
      same total for the same lines, and both are the item-by-item total exactly when no priced SKU
      overflows. */
  lemma GatewayAgrees(items: seq<WebItem>, shop: Shop, answer: Answer)
    requires forall i :: 0 <= i < |items| ==> Trim(Named(items)[i].sku) == Named(items)[i].sku
    requires GatewayAnswer(items, shop, answer) && answer.Charged?
    ensures shop.Some? && answer.total == OrderTotal(Named(items), true, shop)
    ensures answer.total == ItemTotal(Named(items), shop.value) <==> Overflowing(Named(items), shop.value) == {}
  {
    assert Trimmed(Named(items)) == Named(items);
    AggregationIsExactUnlessItOverflows(Named(items), shop.value);
  }

  /** The two services, asked about the same lines. */
  method AskBoth(items: seq<WebItem>, shop: Shop) returns (answer: Answer, total: real)
    requires forall i :: 0 <= i < |items| ==> Trim(Named(items)[i].sku) == Named(items)[i].sku
    ensures answer.Charged? ==> shop.Some? && answer.total == total
    ensures answer.Charged? ==> (total == ItemTotal(Named(items), shop.value) <==> Overflowing(Named(items), shop.value) == {})
  {
    answer := OrdersCalculate(items, shop);
    total := CalculateTotal(Named(items), true, shop);
    if answer.Charged? {
      GatewayAgrees(items, shop, answer);
    }
  }
}
