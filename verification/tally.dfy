/**
 * The `products_sold` tally of one seller: an association list from SKU to
 * cumulative quantity, kept in first-insertion order like the keys of the
 * plain object it models.
 */
module Tally {
  import opened SalesTypes
  import opened Sorting

  /** Whether `sku` has an entry. */
  predicate HasSku(ps: seq<ProductQty>, sku: string) {
    |ps| > 0 && (ps[0].sku == sku || HasSku(ps[1..], sku))
  }

  /** The quantity recorded for `sku`, or 0 when it has no entry. */
  function Qty(ps: seq<ProductQty>, sku: string): int {
    if |ps| == 0 then 0
    else if ps[0].sku == sku then ps[0].quantity
    else Qty(ps[1..], sku)
  }

  /** Each SKU has at most one entry. */
  predicate DistinctSkus(ps: seq<ProductQty>) {
    |ps| == 0 || (!HasSku(ps[1..], ps[0].sku) && DistinctSkus(ps[1..]))
  }

  /**
   * `products_sold[sku] += q`, creating the entry at 0 first when it is
   * missing; a new SKU goes to the end.
   */
  function AddQty(ps: seq<ProductQty>, sku: string, q: int): (r: seq<ProductQty>)
    ensures forall s :: Qty(r, s) == Qty(ps, s) + (if s == sku then q else 0)
    ensures forall s :: HasSku(r, s) <==> HasSku(ps, s) || s == sku
    ensures DistinctSkus(ps) ==> DistinctSkus(r)
    ensures !HasSku(ps, sku) ==> r == ps + [ProductQty(sku, q)]
    ensures HasSku(ps, sku) ==> |r| == |ps| && forall i :: 0 <= i < |r| ==> r[i].sku == ps[i].sku
  {
    if |ps| == 0 then [ProductQty(sku, q)]
    else if ps[0].sku == sku then
      var r := [ps[0].(quantity := ps[0].quantity + q)] + ps[1..];
      assert r[1..] == ps[1..];
      r
    else
      var r := [ps[0]] + AddQty(ps[1..], sku, q);
      assert r[1..] == AddQty(ps[1..], sku, q);
      assert ps == [ps[0]] + ps[1..];
      r
  }

  /** `HasSku` is membership of the SKU among the entries. */
  lemma {:induction false} HasSkuIsMembership(ps: seq<ProductQty>, sku: string)
    ensures HasSku(ps, sku) <==> exists i :: 0 <= i < |ps| && ps[i].sku == sku
  {
    if |ps| > 0 {
      HasSkuIsMembership(ps[1..], sku);
      if exists i :: 0 <= i < |ps| && ps[i].sku == sku {
        var i :| 0 <= i < |ps| && ps[i].sku == sku;
        if i > 0 {
          assert ps[1..][i - 1].sku == sku;
        }
      }
      if exists i :: 0 <= i < |ps[1..]| && ps[1..][i].sku == sku {
        var i :| 0 <= i < |ps[1..]| && ps[1..][i].sku == sku;
        assert ps[i + 1].sku == sku;
      }
    }
  }

  /** One entry per SKU means pairwise distinct SKUs. */
  lemma {:induction false} DistinctSkusPairwise(ps: seq<ProductQty>)
    requires DistinctSkus(ps)
    ensures DistinctBy(ps, SkuOf)
  {
    if |ps| > 0 {
      DistinctSkusPairwise(ps[1..]);
      HasSkuIsMembership(ps[1..], ps[0].sku);
      forall i, j | 0 <= i < j < |ps| ensures SkuOf(ps[i]) != SkuOf(ps[j]) {
        if i == 0 {
          assert ps[1..][j - 1] == ps[j];
        } else {
          assert ps[1..][i - 1] == ps[i] && ps[1..][j - 1] == ps[j];
        }
      }
    }
  }

  /** With one entry per SKU, every entry holds that SKU's quantity. */
  lemma {:induction false} EntryIsQty(ps: seq<ProductQty>, i: nat)
    requires DistinctSkus(ps)
    requires i < |ps|
    ensures Qty(ps, ps[i].sku) == ps[i].quantity
  {
    if i > 0 {
      HasSkuIsMembership(ps[1..], ps[0].sku);
      assert ps[1..][i - 1] == ps[i];
      EntryIsQty(ps[1..], i - 1);
    }
  }
}
