/**
 * Each seller's `top_products`: the entries of its `products_sold`, ordered
 * by quantity with the largest first, cut to the first ten.
 */
module TopSelling {
  import opened SalesTypes
  import opened Sorting
  import opened Tally

  /** How many entries a seller's `top_products` keeps at most. */
  const TopLimit: nat := 10

  function TopProducts(sold: seq<ProductQty>): (r: seq<ProductQty>)
    ensures |r| == if |sold| < TopLimit then |sold| else TopLimit
    ensures SortedDesc(r, QuantityKey)
    ensures forall i :: 0 <= i < |r| ==> r[i] in sold
    ensures forall e, i :: e in sold && e !in r && 0 <= i < |r| ==> QuantityKey(r[i]) >= QuantityKey(e)
    ensures forall v :: Ties(r, QuantityKey, v) <= Ties(sold, QuantityKey, v)
  {
    var sorted := InsertionSort(sold, QuantityKey);
    var n := if |sold| < TopLimit then |sold| else TopLimit;
    var r := sorted[..n];
    SortedPrefixIsTop(sold, sorted, QuantityKey, n, r);
    forall v ensures Ties(r, QuantityKey, v) <= Ties(sold, QuantityKey, v) {
      SortedPrefixKeepsFirstTies(sold, QuantityKey, n, v);
    }
    r
  }

  /**
   * When the tally has one entry per SKU, so does the top list, and every
   * entry carries that SKU's accumulated quantity.
   */
  lemma TopProductsAreTallyEntries(sold: seq<ProductQty>)
    requires DistinctSkus(sold)
    ensures var r := TopProducts(sold);
            && DistinctBy(r, SkuOf)
            && forall i :: 0 <= i < |r| ==> HasSku(sold, r[i].sku) && r[i].quantity == Qty(sold, r[i].sku)
  {
    var r := TopProducts(sold);
    DistinctSkusPairwise(sold);
    SortKeepsDistinct(sold, QuantityKey, SkuOf);
    var sorted := InsertionSort(sold, QuantityKey);
    assert forall i :: 0 <= i < |r| ==> r[i] == sorted[i];
    forall i | 0 <= i < |r| ensures HasSku(sold, r[i].sku) && r[i].quantity == Qty(sold, r[i].sku) {
      var j :| 0 <= j < |sold| && sold[j] == r[i];
      EntryIsQty(sold, j);
      HasSkuIsMembership(sold, r[i].sku);
    }
  }
}
