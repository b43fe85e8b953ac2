/**
 * The preparation step: one zeroed statistics record per seller, and the two
 * lookup objects. Both lookups are filled left to right, so when two entries
 * share a key the later one wins.
 */
module Indexing {
  import opened SalesTypes

  /** One fresh statistics record per input seller, in input order. */
  function InitStats(sellers: seq<Seller>): (r: seq<SellerStat>)
    ensures |r| == |sellers|
    ensures forall i :: 0 <= i < |r| ==>
              && r[i].id == sellers[i].id
              && r[i].name == FullName(sellers[i])
              && r[i].revenue == 0.0 && r[i].profit == 0.0
              && r[i].salesCount == 0 && r[i].productsSold == []
  {
    seq(|sellers|, i requires 0 <= i < |sellers| =>
      SellerStat(sellers[i].id, FullName(sellers[i]), 0.0, 0.0, 0, []))
  }

  /** The keys of the elements of `s`. */
  function KeySet<T>(s: seq<T>, key: T -> string): set<string> {
    set i | 0 <= i < |s| :: key(s[i])
  }

  /**
   * A plain object filled by `index[key(e)] = e` for each element in order,
   * with positions standing for the elements: every key is present and names
   * the LAST position holding it.
   */
  function LastPositions<T>(s: seq<T>, key: T -> string): (pos: map<string, nat>)
    ensures pos.Keys == KeySet(s, key)
    ensures forall k :: k in pos ==> pos[k] < |s| && key(s[pos[k]]) == k
    ensures forall k, j :: k in pos && pos[k] < j < |s| ==> key(s[j]) != k
  {
    if |s| == 0 then map[]
    else
      var n := |s| - 1;
      var pos := LastPositions(s[..n], key);
      LastPositionsStep(s, s[..n], key, pos);
      pos[key(s[n]) := n]
  }

  /** The inductive step of `LastPositions`, kept apart to keep each proof small. */
  lemma LastPositionsStep<T>(s: seq<T>, prefix: seq<T>, key: T -> string, pos: map<string, nat>)
    requires |s| > 0 && prefix == s[..|s| - 1]
    requires pos.Keys == KeySet(prefix, key)
    requires forall k :: k in pos ==> pos[k] < |prefix| && key(prefix[pos[k]]) == k
    requires forall k, j :: k in pos && pos[k] < j < |prefix| ==> key(prefix[j]) != k
    ensures var r := pos[key(s[|s| - 1]) := |s| - 1];
            && r.Keys == KeySet(s, key)
            && (forall k :: k in r ==> r[k] < |s| && key(s[r[k]]) == k)
            && (forall k, j :: k in r && r[k] < j < |s| ==> key(s[j]) != k)
  {
    var n := |s| - 1;
    var r := pos[key(s[n]) := n];
    forall k | k in KeySet(s, key) ensures k in r {
      var i :| 0 <= i < |s| && key(s[i]) == k;
      if i < n {
        assert key(prefix[i]) == k;
      }
    }
    forall k | k in KeySet(prefix, key) ensures k in KeySet(s, key) {
      var i :| 0 <= i < n && key(prefix[i]) == k;
      assert key(s[i]) == k;
    }
    forall k | k in r ensures r[k] < |s| && key(s[r[k]]) == k {
      if k != key(s[n]) {
        assert s[pos[k]] == prefix[pos[k]];
      }
    }
    forall k, j | k in r && r[k] < j < |s| ensures key(s[j]) != k {
      if k != key(s[n]) && j < n {
        assert s[j] == prefix[j];
      }
    }
  }

  function StatKey(st: SellerStat): string {
    st.id
  }

  function ProductKey(p: Product): string {
    p.sku
  }

  /** `sellerIndex`: seller id to the position of its statistics record. */
  function SellerIndex(stats: seq<SellerStat>): map<string, nat> {
    LastPositions(stats, StatKey)
  }

  /** Position `i` holds the last card with this SKU. */
  predicate IsLastCard(products: seq<Product>, i: int, sku: string) {
    && 0 <= i < |products|
    && products[i].sku == sku
    && forall j :: i < j < |products| ==> products[j].sku != sku
  }

  /** `productIndex`: SKU to product card; every SKU is present and maps to its LAST card. */
  function ProductIndex(products: seq<Product>): (idx: map<string, Product>)
    ensures idx.Keys == set i | 0 <= i < |products| :: products[i].sku
    ensures forall sku :: sku in idx ==> exists i :: IsLastCard(products, i, sku) && products[i] == idx[sku]
  {
    var pos := LastPositions(products, ProductKey);
    var idx := map sku | sku in pos :: products[pos[sku]];
    assert forall sku :: sku in idx ==> IsLastCard(products, pos[sku], sku);
    idx
  }
}
