/**
 * `analyzeSalesData`: validate, index, aggregate, rank by profit, then build
 * one report row per seller with its bonus and top products.
 */
module Report {
  import opened Wrappers
  import opened Money
  import opened Seqs
  import opened Sorting
  import opened SalesTypes
  import opened Tally
  import opened Validation
  import opened Indexing
  import opened Aggregation
  import opened TopSelling
  import opened Strategies

  /** The seller index built from the fresh statistics of `sellers`. */
  function SellerIndexOf(sellers: seq<Seller>): (idx: map<string, nat>)
    ensures IndexInRange(idx, |sellers|)
    ensures idx.Keys == set i | 0 <= i < |sellers| :: sellers[i].id
  {
    var stats := InitStats(sellers);
    var idx := SellerIndex(stats);
    var ids := set i | 0 <= i < |sellers| :: sellers[i].id;
    assert (set i | 0 <= i < |stats| :: stats[i].id) == ids by {
      forall id | id in ids ensures id in (set i | 0 <= i < |stats| :: stats[i].id) {
        var i :| 0 <= i < |sellers| && sellers[i].id == id;
        assert stats[i].id == id;
      }
    }
    idx
  }

  /** Steps 2 and 3: every seller's statistics after the pass, in input order. */
  function Statistics(v: ValidInput): (r: seq<SellerStat>)
    ensures |r| == |v.sellers|
    ensures forall k :: 0 <= k < |r| ==> r[k].id == v.sellers[k].id && r[k].name == FullName(v.sellers[k])
  {
    Aggregate(InitStats(v.sellers), SellerIndexOf(v.sellers), ProductIndex(v.products), v.records, v.calculateRevenue)
  }

  /** Step 4: sellers by profit, largest first; sellers with equal profit keep their input order. */
  function Rank(stats: seq<SellerStat>): (r: seq<SellerStat>)
    ensures |r| == |stats|
    ensures multiset(r) == multiset(stats)
    ensures SortedDesc(r, ProfitKey)
    ensures forall p :: Ties(r, ProfitKey, p) == Ties(stats, ProfitKey, p)
  {
    forall p ensures Ties(InsertionSort(stats, ProfitKey), ProfitKey, p) == Ties(stats, ProfitKey, p) {
      InsertionSortIsStable(stats, ProfitKey, p);
    }
    InsertionSort(stats, ProfitKey)
  }

  /** Step 5 for one seller at rank `index` of `total`. */
  function Row(st: SellerStat, index: nat, total: nat, calculateBonus: BonusFn): (r: ReportRow)
    ensures r.sellerId == st.id && r.name == st.name && r.salesCount == st.salesCount
    ensures IsCents(r.revenue) && IsCents(r.profit) && IsCents(r.bonus)
    ensures IsCents(st.profit) ==> r.profit == st.profit
    ensures |r.topProducts| <= TopLimit && SortedDesc(r.topProducts, QuantityKey)
    ensures forall i :: 0 <= i < |r.topProducts| ==> r.topProducts[i] in st.productsSold
  {
    assert IsCents(st.profit) ==> Round2(st.profit) == st.profit by {
      if IsCents(st.profit) {
        Round2OfCents(st.profit);
      }
    }
    ReportRow(
      st.id,
      st.name,
      Round2(st.revenue),
      Round2(st.profit),
      st.salesCount,
      TopProducts(st.productsSold),
      Round2(calculateBonus(index, total, st)))
  }

  /** Rounding keeps the rows in the ranking's profit order. */
  function Rows(ranked: seq<SellerStat>, calculateBonus: BonusFn): (rows: seq<ReportRow>)
    ensures |rows| == |ranked|
    ensures SortedDesc(ranked, ProfitKey) ==>
              forall i, j :: 0 <= i < j < |rows| ==> rows[i].profit >= rows[j].profit
  {
    var rows := seq(|ranked|, i requires 0 <= i < |ranked| => Row(ranked[i], i, |ranked|, calculateBonus));
    assert SortedDesc(ranked, ProfitKey) ==>
             forall i, j :: 0 <= i < j < |rows| ==> rows[i].profit >= rows[j].profit by {
      if SortedDesc(ranked, ProfitKey) {
        forall i, j | 0 <= i < j < |rows| ensures rows[i].profit >= rows[j].profit {
          assert ProfitKey(ranked[i]) >= ProfitKey(ranked[j]);
          Round2Monotone(ranked[j].profit, ranked[i].profit);
        }
      }
    }
    rows
  }

  /** Steps 2 to 5 on validated input. */
  function SalesReport(v: ValidInput): (r: seq<ReportRow>)
    ensures |r| == |v.sellers|
    ensures forall i, j :: 0 <= i < j < |r| ==> r[i].profit >= r[j].profit
    ensures forall i :: 0 <= i < |r| ==> |r[i].topProducts| <= TopLimit && SortedDesc(r[i].topProducts, QuantityKey)
  {
    Rows(Rank(Statistics(v)), v.calculateBonus)
  }

  /** The whole pipeline: a report, or the first shape error found. */
  function AnalyzeSalesData(data: Option<RawData>, options: RawOptions): (r: Result<seq<ReportRow>, InputError>)
    ensures r.Failure? <==> Validate(data, options).Failure?
    ensures r.Failure? ==> r.error == Validate(data, options).error
    ensures r.Success? ==> r.value == SalesReport(Validate(data, options).value)
    ensures r.Success? ==> data.Some? && |r.value| == |data.value.sellers.elems|
    ensures r.Success? ==> forall i, j :: 0 <= i < j < |r.value| ==> r.value[i].profit >= r.value[j].profit
    ensures r.Success? ==> forall i :: 0 <= i < |r.value| ==>
              |r.value[i].topProducts| <= TopLimit && SortedDesc(r.value[i].topProducts, QuantityKey)
  {
    var v :- Validate(data, options);
    Success(SalesReport(v))
  }

  // ---------------------------------------------------------------------
  // Properties of the report.
  // ---------------------------------------------------------------------

  /** The seller a row or a seller stands for: id and display name. */
  function RowIdentity(row: ReportRow): (string, string) {
    (row.sellerId, row.name)
  }

  function SellerIdentity(s: Seller): (string, string) {
    (s.id, FullName(s))
  }

  function StatIdentity(st: SellerStat): (string, string) {
    (st.id, st.name)
  }

  function RowSalesCount(row: ReportRow): int {
    row.salesCount
  }

  /**
   * Row `i` is the seller at rank `i`, and its bonus comes from one call of
   * the bonus strategy with that rank and the number of sellers.
   */
  lemma ReportIsRankedRows(v: ValidInput)
    ensures var ranked := Rank(Statistics(v));
            var rows := SalesReport(v);
            && |rows| == |ranked| == |v.sellers|
            && forall i :: 0 <= i < |rows| ==>
                 && rows[i].sellerId == ranked[i].id
                 && rows[i].name == ranked[i].name
                 && rows[i].salesCount == ranked[i].salesCount
                 && rows[i].revenue == Round2(ranked[i].revenue)
                 && rows[i].profit == Round2(ranked[i].profit)
                 && rows[i].topProducts == TopProducts(ranked[i].productsSold)
                 && rows[i].bonus == Round2(v.calculateBonus(i, |v.sellers|, ranked[i]))
  {
  }

  /** Exactly one row per input seller: the (id, name) pairs are a permutation of the sellers'. */
  lemma ReportHasOneRowPerSeller(v: ValidInput)
    ensures multiset(Image(SalesReport(v), RowIdentity)) == multiset(Image(v.sellers, SellerIdentity))
  {
    var stats := Statistics(v);
    var ranked := Rank(stats);
    var rows := SalesReport(v);
    ReportIsRankedRows(v);
    ImagesAgree(rows, ranked, RowIdentity, StatIdentity);
    SortPermutesImage(stats, ProfitKey, StatIdentity);
    ImagesAgree(stats, v.sellers, StatIdentity, SellerIdentity);
  }

  /** The sales counts in the report add up to the number of records whose seller id is a seller's id. */
  lemma ReportCountsKnownRecords(v: ValidInput)
    ensures SumBy(SalesReport(v), RowSalesCount)
            == |KnownSellerRecords(v.records, set i | 0 <= i < |v.sellers| :: v.sellers[i].id)|
  {
    var init := InitStats(v.sellers);
    var idx := SellerIndexOf(v.sellers);
    var stats := Statistics(v);
    var ranked := Rank(stats);
    var rows := SalesReport(v);
    ReportIsRankedRows(v);
    AggregateCountsKnownRecords(init, idx, ProductIndex(v.products), v.records, v.calculateRevenue);
    ZeroSalesCountSum(init);
    SortPreservesSum(stats, ProfitKey, SalesCountOf);
    SumByImage(rows, ranked, RowSalesCount, SalesCountOf);
  }

  lemma {:induction false} ZeroSalesCountSum(stats: seq<SellerStat>)
    requires forall k :: 0 <= k < |stats| ==> stats[k].salesCount == 0
    ensures SumBy(stats, SalesCountOf) == 0
  {
    if |stats| > 0 {
      ZeroSalesCountSum(stats[1..]);
    }
  }

  lemma {:induction false} SumByImage<T, U>(a: seq<T>, b: seq<U>, f: T -> int, g: U -> int)
    requires |a| == |b|
    requires forall i :: 0 <= i < |a| ==> f(a[i]) == g(b[i])
    ensures SumBy(a, f) == SumBy(b, g)
  {
    if |a| > 0 {
      SumByImage(a[1..], b[1..], f, g);
    }
  }

  /**
   * Each seller's statistics, before ranking, are the sums over exactly the
   * records whose seller id resolves to it.
   */
  lemma StatisticsPerSeller(v: ValidInput, k: nat)
    requires k < |v.sellers|
    ensures var st := Statistics(v);
            var products := ProductIndex(v.products);
            var mine := RoutedTo(v.records, SellerIndexOf(v.sellers), k);
            && st[k].salesCount == |mine|
            && st[k].revenue == RevenueSum(mine)
            && st[k].profit == ProfitSum(mine, products, v.calculateRevenue)
            && (forall s :: Qty(st[k].productsSold, s) == QtySum(mine, products, s))
            && (forall s :: HasSku(st[k].productsSold, s) <==> SoldAny(mine, products, s))
            && DistinctSkus(st[k].productsSold)
  {
    var init := InitStats(v.sellers);
    AggregatePerSeller(init, SellerIndexOf(v.sellers), ProductIndex(v.products), v.records, v.calculateRevenue, k);
    AggregateTallyPerSeller(init, SellerIndexOf(v.sellers), ProductIndex(v.products), v.records, v.calculateRevenue, k);
  }

  /**
   * When a later seller has the same id, the index points at the later one,
   * so the earlier seller keeps its zero statistics.
   */
  lemma ShadowedSellerStaysZero(v: ValidInput, k: nat, later: nat)
    requires k < later < |v.sellers|
    requires v.sellers[k].id == v.sellers[later].id
    ensures Statistics(v)[k] == InitStats(v.sellers)[k]
  {
    var init := InitStats(v.sellers);
    var idx := SellerIndexOf(v.sellers);
    assert SellerIndex(init) == idx;
    assert init[later].id == init[k].id;
    UnreachedSellerReceivesNothing(v.records, idx, k);
    StatisticsPerSeller(v, k);
    var sold := Statistics(v)[k].productsSold;
    if |sold| > 0 {
      assert HasSku(sold, sold[0].sku);
    }
  }

  /** Every row's top products are distinct SKUs carrying that seller's accumulated quantities. */
  lemma ReportTopProductsAreTallyEntries(v: ValidInput, i: nat)
    requires i < |v.sellers|
    ensures var st := Rank(Statistics(v))[i];
            var top := SalesReport(v)[i].topProducts;
            && DistinctBy(top, SkuOf)
            && forall j :: 0 <= j < |top| ==> HasSku(st.productsSold, top[j].sku) && top[j].quantity == Qty(st.productsSold, top[j].sku)
  {
    var stats := Statistics(v);
    var ranked := Rank(stats);
    ReportIsRankedRows(v);
    assert ranked[i] in multiset(stats);
    var k :| 0 <= k < |stats| && stats[k] == ranked[i];
    StatisticsPerSeller(v, k);
    TopProductsAreTallyEntries(ranked[i].productsSold);
  }

  /** With the default bonus strategy, the report's re-rounding leaves each bonus as the strategy computed it. */
  lemma DefaultBonusSurvivesReport(v: ValidInput, i: nat)
    requires v.calculateBonus == BonusByProfit
    requires i < |v.sellers|
    ensures SalesReport(v)[i].bonus == BonusByProfit(i, |v.sellers|, Rank(Statistics(v))[i])
  {
    var seller := Rank(Statistics(v))[i];
    ReportIsRankedRows(v);
    Round2OfCents(BonusByProfit(i, |v.sellers|, seller));
  }

  /** The input of the single-seller scenario below. */
  function ScenarioInput(): ValidInput {
    ValidInput(
      [Seller("seller_1", "Ann", "Lee")],
      [Product("SKU_1", 50.0)],
      [PurchaseRecord("seller_1", 180.0, [Item("SKU_1", 2, 100.0, 10.0)])],
      SimpleRevenue,
      BonusByProfit)
  }

  /** The scenario's one purchase, applied to the seller it names. */
  lemma ScenarioPurchase()
    ensures ApplyItems(SellerStat("seller_1", "Ann Lee", 180.0, 0.0, 1, []), [Item("SKU_1", 2, 100.0, 10.0)],
                       map["SKU_1" := Product("SKU_1", 50.0)], SimpleRevenue)
            == SellerStat("seller_1", "Ann Lee", 180.0, 80.0, 1, [ProductQty("SKU_1", 2)])
  {
    var item := Item("SKU_1", 2, 100.0, 10.0);
    var products := map["SKU_1" := Product("SKU_1", 50.0)];
    var counted := SellerStat("seller_1", "Ann Lee", 180.0, 0.0, 1, []);
    assert SimpleRevenue(item, Product("SKU_1", 50.0)) == 180.0;
    assert ApplyItems(counted, [item], products, SimpleRevenue)
           == ApplyItem(ApplyItems(counted, [], products, SimpleRevenue), item, products, SimpleRevenue);
    assert AddQty([], "SKU_1", 2) == [ProductQty("SKU_1", 2)];
  }

  /** The scenario's statistics after the aggregation pass. */
  lemma ScenarioStatistics()
    ensures Statistics(ScenarioInput()) == [SellerStat("seller_1", "Ann Lee", 180.0, 80.0, 1, [ProductQty("SKU_1", 2)])]
  {
    var v := ScenarioInput();
    var init := InitStats(v.sellers);
    assert FullName(v.sellers[0]) == "Ann Lee";
    assert init == [SellerStat("seller_1", "Ann Lee", 0.0, 0.0, 0, [])];
    var idx := SellerIndexOf(v.sellers);
    assert idx == map["seller_1" := 0];
    var products := ProductIndex(v.products);
    assert products == map["SKU_1" := Product("SKU_1", 50.0)];
    ScenarioPurchase();
    assert Aggregate(init, idx, products, v.records, SimpleRevenue)
           == ApplyRecord(init, idx, products, v.records[0], SimpleRevenue);
  }

  /**
   * One seller, one product, one purchase of two units at 100 with a 10%
   * discount against a purchase price of 50: revenue 180, cost 100, profit
   * 80, and the lone seller's top-rank bonus of 15% is 12.
   */
  lemma SingleSellerScenario()
    ensures SalesReport(ScenarioInput())
            == [ReportRow("seller_1", "Ann Lee", 180.0, 80.0, 1, [ProductQty("SKU_1", 2)], 12.0)]
  {
    var sold := [ProductQty("SKU_1", 2)];
    var st := SellerStat("seller_1", "Ann Lee", 180.0, 80.0, 1, sold);
    ScenarioStatistics();
    assert Rank([st]) == [st];
    assert TopProducts(sold) == sold;
    Round2OfCents(180.0);
    Round2OfCents(80.0);
    Round2OfCents(12.0);
    assert BonusByProfit(0, 1, st) == 12.0;
  }
}
