/**
 * The single pass over the purchase records. A record whose seller id is
 * not in the seller index is skipped whole; an item whose SKU is not in the
 * product index is skipped alone, after its record was already counted.
 * Records and items are processed in input order.
 */
module Aggregation {
  import opened SalesTypes
  import opened Tally
  import opened Seqs

  /** Every position the seller index names is a valid position in `stats`. */
  predicate IndexInRange(idx: map<string, nat>, n: nat) {
    forall id :: id in idx ==> idx[id] < n
  }

  /** The profit of one item: the strategy's revenue less purchase price times quantity. */
  function ItemProfit(item: Item, product: Product, calculateRevenue: RevenueFn): real {
    calculateRevenue(item, product) - product.purchasePrice * item.quantity as real
  }

  // ---------------------------------------------------------------------
  // Reference sums: what each accumulator should end up holding.
  // ---------------------------------------------------------------------

  /** Sum of item profits over the items whose SKU is known. */
  function ItemsProfit(items: seq<Item>, products: map<string, Product>, calculateRevenue: RevenueFn): real {
    if |items| == 0 then 0.0
    else
      var item := items[|items| - 1];
      ItemsProfit(items[..|items| - 1], products, calculateRevenue)
        + (if item.sku in products then ItemProfit(item, products[item.sku], calculateRevenue) else 0.0)
  }

  /** Sum of quantities over the items with SKU `sku`, provided that SKU is known. */
  function ItemsQty(items: seq<Item>, products: map<string, Product>, sku: string): int {
    if |items| == 0 then 0
    else
      var item := items[|items| - 1];
      ItemsQty(items[..|items| - 1], products, sku)
        + (if item.sku == sku && sku in products then item.quantity else 0)
  }

  /** Some item has SKU `sku` and that SKU is known. */
  predicate SoldIn(items: seq<Item>, products: map<string, Product>, sku: string) {
    sku in products && exists i :: 0 <= i < |items| && items[i].sku == sku
  }

  /** The items whose SKU is known, in order. */
  function KnownItems(items: seq<Item>, products: map<string, Product>): seq<Item> {
    if |items| == 0 then []
    else
      var item := items[|items| - 1];
      KnownItems(items[..|items| - 1], products) + (if item.sku in products then [item] else [])
  }

  /** The records whose seller id resolves to position `k`, in order. */
  function RoutedTo(records: seq<PurchaseRecord>, idx: map<string, nat>, k: nat): seq<PurchaseRecord> {
    if |records| == 0 then []
    else
      var rec := records[|records| - 1];
      RoutedTo(records[..|records| - 1], idx, k)
        + (if rec.sellerId in idx && idx[rec.sellerId] == k then [rec] else [])
  }

  /** The records whose seller id is one of `known`, in order. */
  function KnownSellerRecords(records: seq<PurchaseRecord>, known: set<string>): seq<PurchaseRecord> {
    if |records| == 0 then []
    else
      var rec := records[|records| - 1];
      KnownSellerRecords(records[..|records| - 1], known) + (if rec.sellerId in known then [rec] else [])
  }

  function RevenueSum(records: seq<PurchaseRecord>): real {
    if |records| == 0 then 0.0
    else RevenueSum(records[..|records| - 1]) + records[|records| - 1].totalAmount
  }

  function ProfitSum(records: seq<PurchaseRecord>, products: map<string, Product>, calculateRevenue: RevenueFn): real {
    if |records| == 0 then 0.0
    else ProfitSum(records[..|records| - 1], products, calculateRevenue)
           + ItemsProfit(records[|records| - 1].items, products, calculateRevenue)
  }

  function QtySum(records: seq<PurchaseRecord>, products: map<string, Product>, sku: string): int {
    if |records| == 0 then 0
    else QtySum(records[..|records| - 1], products, sku) + ItemsQty(records[|records| - 1].items, products, sku)
  }

  /** Some record sold a known SKU `sku`. */
  predicate SoldAny(records: seq<PurchaseRecord>, products: map<string, Product>, sku: string) {
    exists i :: 0 <= i < |records| && SoldIn(records[i].items, products, sku)
  }

  // ---------------------------------------------------------------------
  // The pass itself.
  // ---------------------------------------------------------------------

  /** One item of a record whose seller is known. */
  function ApplyItem(st: SellerStat, item: Item, products: map<string, Product>, calculateRevenue: RevenueFn): (r: SellerStat)
    ensures r.id == st.id && r.name == st.name && r.revenue == st.revenue && r.salesCount == st.salesCount
    ensures item.sku !in products ==> r == st
    ensures item.sku in products ==>
              && r.profit == st.profit + ItemProfit(item, products[item.sku], calculateRevenue)
              && (forall s :: Qty(r.productsSold, s) == Qty(st.productsSold, s) + (if s == item.sku then item.quantity else 0))
              && (forall s :: HasSku(r.productsSold, s) <==> HasSku(st.productsSold, s) || s == item.sku)
    ensures DistinctSkus(st.productsSold) ==> DistinctSkus(r.productsSold)
  {
    if item.sku !in products then st
    else
      var product := products[item.sku];
      st.(profit := st.profit + ItemProfit(item, product, calculateRevenue),
          productsSold := AddQty(st.productsSold, item.sku, item.quantity))
  }

  /** All items of a record, in order. */
  function ApplyItems(st: SellerStat, items: seq<Item>, products: map<string, Product>, calculateRevenue: RevenueFn): (r: SellerStat)
    ensures r.id == st.id && r.name == st.name && r.revenue == st.revenue && r.salesCount == st.salesCount
    ensures r.profit == st.profit + ItemsProfit(items, products, calculateRevenue)
    ensures forall s :: Qty(r.productsSold, s) == Qty(st.productsSold, s) + ItemsQty(items, products, s)
    ensures forall s :: HasSku(r.productsSold, s) <==> HasSku(st.productsSold, s) || SoldIn(items, products, s)
    ensures DistinctSkus(st.productsSold) ==> DistinctSkus(r.productsSold)
  {
    if |items| == 0 then st
    else
      var n := |items| - 1;
      var prefix := items[..n];
      assert forall s :: SoldIn(items, products, s) <==> SoldIn(prefix, products, s) || (s == items[n].sku && s in products) by {
        forall s ensures SoldIn(items, products, s) <==> SoldIn(prefix, products, s) || (s == items[n].sku && s in products) {
          if SoldIn(prefix, products, s) {
            var i :| 0 <= i < |prefix| && prefix[i].sku == s;
            assert items[i].sku == s;
          }
          if SoldIn(items, products, s) {
            var i :| 0 <= i < |items| && items[i].sku == s;
            if i < n {
              assert prefix[i].sku == s;
            }
          }
        }
      }
      ApplyItem(ApplyItems(st, prefix, products, calculateRevenue), items[n], products, calculateRevenue)
  }

  /** One purchase record. */
  function ApplyRecord(stats: seq<SellerStat>, idx: map<string, nat>, products: map<string, Product>,
                       rec: PurchaseRecord, calculateRevenue: RevenueFn): (r: seq<SellerStat>)
    requires IndexInRange(idx, |stats|)
    ensures |r| == |stats|
    ensures forall k :: 0 <= k < |r| ==> r[k].id == stats[k].id && r[k].name == stats[k].name
    ensures rec.sellerId !in idx ==> r == stats
    ensures rec.sellerId in idx ==>
              var k := idx[rec.sellerId];
              && r[k].salesCount == stats[k].salesCount + 1
              && r[k].revenue == stats[k].revenue + rec.totalAmount
              && forall j :: 0 <= j < |r| && j != k ==> r[j] == stats[j]
  {
    if rec.sellerId !in idx then stats
    else
      var k := idx[rec.sellerId];
      var counted := stats[k].(salesCount := stats[k].salesCount + 1,
                               revenue := stats[k].revenue + rec.totalAmount);
      stats[k := ApplyItems(counted, rec.items, products, calculateRevenue)]
  }

  /** All purchase records, in order. */
  function Aggregate(stats: seq<SellerStat>, idx: map<string, nat>, products: map<string, Product>,
                     records: seq<PurchaseRecord>, calculateRevenue: RevenueFn): (r: seq<SellerStat>)
    requires IndexInRange(idx, |stats|)
    ensures |r| == |stats|
    ensures forall k :: 0 <= k < |r| ==> r[k].id == stats[k].id && r[k].name == stats[k].name
  {
    if |records| == 0 then stats
    else
      var n := |records| - 1;
      ApplyRecord(Aggregate(stats, idx, products, records[..n], calculateRevenue), idx, products, records[n], calculateRevenue)
  }

  // ---------------------------------------------------------------------
  // Properties of the pass.
  // ---------------------------------------------------------------------

  /**
   * Each seller's count, revenue and profit are its starting values plus the
   * reference sums over exactly the records routed to it.
   */
  lemma {:induction false} AggregatePerSeller(stats: seq<SellerStat>, idx: map<string, nat>, products: map<string, Product>,
                                              records: seq<PurchaseRecord>, calculateRevenue: RevenueFn, k: nat)
    requires IndexInRange(idx, |stats|)
    requires k < |stats|
    ensures var r := Aggregate(stats, idx, products, records, calculateRevenue);
            var mine := RoutedTo(records, idx, k);
            && r[k].salesCount == stats[k].salesCount + |mine|
            && r[k].revenue == stats[k].revenue + RevenueSum(mine)
            && r[k].profit == stats[k].profit + ProfitSum(mine, products, calculateRevenue)
  {
    if |records| > 0 {
      var n := |records| - 1;
      var rec := records[n];
      AggregatePerSeller(stats, idx, products, records[..n], calculateRevenue, k);
      var mine := RoutedTo(records, idx, k);
      var minePrefix := RoutedTo(records[..n], idx, k);
      if rec.sellerId in idx && idx[rec.sellerId] == k {
        assert mine == minePrefix + [rec];
        assert mine[..|mine| - 1] == minePrefix;
      } else {
        assert mine == minePrefix;
      }
    }
  }

  /** One more routed record adds its sold SKUs to those already sold. */
  lemma SoldAnySnoc(mine: seq<PurchaseRecord>, prefix: seq<PurchaseRecord>, rec: PurchaseRecord,
                    products: map<string, Product>, s: string)
    requires mine == prefix + [rec]
    ensures SoldAny(mine, products, s) <==> SoldAny(prefix, products, s) || SoldIn(rec.items, products, s)
  {
    if SoldAny(mine, products, s) {
      var i :| 0 <= i < |mine| && SoldIn(mine[i].items, products, s);
      if i < |prefix| {
        assert prefix[i] == mine[i];
      }
    }
    if SoldAny(prefix, products, s) {
      var i :| 0 <= i < |prefix| && SoldIn(prefix[i].items, products, s);
      assert mine[i] == prefix[i];
    }
    if SoldIn(rec.items, products, s) {
      assert mine[|mine| - 1] == rec;
    }
  }

  /**
   * Each seller's `products_sold` holds, per SKU, its starting quantity plus
   * the quantities of that known SKU over the records routed to it; a SKU has
   * an entry exactly when it had one or such a record sold it; and the
   * entries stay one per SKU.
   */
  lemma {:induction false} AggregateTallyPerSeller(stats: seq<SellerStat>, idx: map<string, nat>, products: map<string, Product>,
                                                   records: seq<PurchaseRecord>, calculateRevenue: RevenueFn, k: nat)
    requires IndexInRange(idx, |stats|)
    requires k < |stats|
    ensures var r := Aggregate(stats, idx, products, records, calculateRevenue);
            var mine := RoutedTo(records, idx, k);
            && (forall s :: Qty(r[k].productsSold, s) == Qty(stats[k].productsSold, s) + QtySum(mine, products, s))
            && (forall s :: HasSku(r[k].productsSold, s) <==> HasSku(stats[k].productsSold, s) || SoldAny(mine, products, s))
            && (DistinctSkus(stats[k].productsSold) ==> DistinctSkus(r[k].productsSold))
  {
    if |records| > 0 {
      var n := |records| - 1;
      var rec := records[n];
      AggregateTallyPerSeller(stats, idx, products, records[..n], calculateRevenue, k);
      var mine := RoutedTo(records, idx, k);
      var minePrefix := RoutedTo(records[..n], idx, k);
      if rec.sellerId in idx && idx[rec.sellerId] == k {
        assert mine == minePrefix + [rec];
        assert mine[..|mine| - 1] == minePrefix;
        forall s ensures SoldAny(mine, products, s) <==> SoldAny(minePrefix, products, s) || SoldIn(rec.items, products, s) {
          SoldAnySnoc(mine, minePrefix, rec, products, s);
        }
      } else {
        assert mine == minePrefix;
      }
    }
  }

  /** The sales counts add up to the number of records whose seller is known. */
  lemma {:induction false} AggregateCountsKnownRecords(stats: seq<SellerStat>, idx: map<string, nat>, products: map<string, Product>,
                                                       records: seq<PurchaseRecord>, calculateRevenue: RevenueFn)
    requires IndexInRange(idx, |stats|)
    ensures SumBy(Aggregate(stats, idx, products, records, calculateRevenue), SalesCountOf)
            == SumBy(stats, SalesCountOf) + |KnownSellerRecords(records, idx.Keys)|
  {
    if |records| > 0 {
      var n := |records| - 1;
      var rec := records[n];
      AggregateCountsKnownRecords(stats, idx, products, records[..n], calculateRevenue);
      var before := Aggregate(stats, idx, products, records[..n], calculateRevenue);
      if rec.sellerId in idx {
        var k := idx[rec.sellerId];
        var after := ApplyRecord(before, idx, products, rec, calculateRevenue);
        assert after == before[k := after[k]];
        SumByUpdate(before, k, after[k], SalesCountOf);
      }
    }
  }

  /** Items with an unknown SKU change nothing: dropping them gives the same result. */
  lemma {:induction false} UnknownItemsContributeNothing(st: SellerStat, items: seq<Item>, products: map<string, Product>,
                                                         calculateRevenue: RevenueFn)
    ensures ApplyItems(st, items, products, calculateRevenue)
            == ApplyItems(st, KnownItems(items, products), products, calculateRevenue)
  {
    if |items| > 0 {
      var n := |items| - 1;
      var known := KnownItems(items, products);
      var knownPrefix := KnownItems(items[..n], products);
      UnknownItemsContributeNothing(st, items[..n], products, calculateRevenue);
      if items[n].sku in products {
        assert known == knownPrefix + [items[n]];
        assert known[..|known| - 1] == knownPrefix;
      } else {
        assert known == knownPrefix;
      }
    }
  }

  /** Records with an unknown seller change nothing: dropping them gives the same result. */
  lemma {:induction false} UnknownSellersContributeNothing(stats: seq<SellerStat>, idx: map<string, nat>, products: map<string, Product>,
                                                           records: seq<PurchaseRecord>, calculateRevenue: RevenueFn)
    requires IndexInRange(idx, |stats|)
    ensures Aggregate(stats, idx, products, records, calculateRevenue)
            == Aggregate(stats, idx, products, KnownSellerRecords(records, idx.Keys), calculateRevenue)
  {
    if |records| > 0 {
      var n := |records| - 1;
      var known := KnownSellerRecords(records, idx.Keys);
      var knownPrefix := KnownSellerRecords(records[..n], idx.Keys);
      UnknownSellersContributeNothing(stats, idx, products, records[..n], calculateRevenue);
      if records[n].sellerId in idx {
        assert known == knownPrefix + [records[n]];
        assert known[..|known| - 1] == knownPrefix;
      } else {
        assert known == knownPrefix;
      }
    }
  }

  /** A position that no id resolves to receives no records. */
  lemma {:induction false} UnreachedSellerReceivesNothing(records: seq<PurchaseRecord>, idx: map<string, nat>, k: nat)
    requires forall id :: id in idx ==> idx[id] != k
    ensures RoutedTo(records, idx, k) == []
  {
    if |records| > 0 {
      UnreachedSellerReceivesNothing(records[..|records| - 1], idx, k);
    }
  }
}
