/** The two default strategies: per-item revenue and rank-based bonus. */
module Strategies {
  import opened SalesTypes
  import opened Money

  /**
   * `calculateSimpleRevenue`: sale price times quantity, less the discount
   * percentage. The product card is ignored.
   */
  function SimpleRevenue(item: Item, product: Product): (r: real)
    ensures item.discount == 0.0 ==> r == item.salePrice * item.quantity as real
    ensures item.discount == 100.0 ==> r == 0.0
    ensures 0.0 <= item.discount <= 100.0 && item.salePrice >= 0.0 && item.quantity >= 0 ==>
              0.0 <= r <= item.salePrice * item.quantity as real
  {
    var gross := item.salePrice * item.quantity as real;
    var multiplier := 1.0 - item.discount / 100.0;
    assert 0.0 <= item.discount <= 100.0 ==> 0.0 <= multiplier <= 1.0;
    assert gross >= 0.0 && 0.0 <= multiplier <= 1.0 ==> gross * multiplier <= gross;
    gross * multiplier
  }

  /**
   * The rank categories of the default bonus policy. The rules are tried in
   * this order and the first that matches wins.
   */
  datatype Tier = Top | Runner | Bottom | Standard

  function TierOf(index: int, total: int): Tier {
    if index == 0 then Top
    else if index == 1 || index == 2 then Runner
    else if index == total - 1 then Bottom
    else Standard
  }

  /** The share of profit each category earns. */
  function Rate(t: Tier): real {
    match t
    case Top => 0.15
    case Runner => 0.10
    case Bottom => 0.0
    case Standard => 0.05
  }

  /** `calculateBonusByProfit`: the tier's share of the seller's profit, rounded to cents. */
  function BonusByProfit(index: nat, total: nat, seller: SellerStat): (r: real)
    ensures index == 0 ==> r == Round2(seller.profit * 0.15)
    ensures (index == 1 || index == 2) ==> r == Round2(seller.profit * 0.10)
    ensures index >= 3 && index == total - 1 ==> r == 0.0
    ensures index >= 3 && index != total - 1 ==> r == Round2(seller.profit * 0.05)
    ensures IsCents(r)
  {
    var share := seller.profit * Rate(TierOf(index, total));
    assert TierOf(index, total) == Bottom ==> share == 0.0 && Round2(share) == 0.0 by {
      if TierOf(index, total) == Bottom {
        Round2OfCents(0.0);
      }
    }
    Round2(share)
  }

  /**
   * A lone seller is both first and last; the first rule wins, so it gets the
   * top share rather than nothing.
   */
  lemma LoneSellerGetsTopShare(seller: SellerStat)
    ensures BonusByProfit(0, 1, seller) == Round2(seller.profit * 0.15)
    ensures seller.profit >= 0.04 ==> BonusByProfit(0, 1, seller) > 0.0
  {
  }

  /**
   * With non-negative profits in non-increasing order, a better rank never
   * earns a smaller bonus.
   */
  lemma BonusNonIncreasingByRank(i: nat, j: nat, total: nat, a: SellerStat, b: SellerStat)
    requires i < j < total
    requires a.profit >= b.profit >= 0.0
    ensures BonusByProfit(i, total, a) >= BonusByProfit(j, total, b)
  {
    var ra := Rate(TierOf(i, total));
    var rb := Rate(TierOf(j, total));
    assert ra >= rb;
    assert a.profit * ra >= b.profit * ra >= b.profit * rb;
    Round2Monotone(b.profit * rb, a.profit * ra);
  }
}
