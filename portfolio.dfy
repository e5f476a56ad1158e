/** The portfolio store: the list of holdings, their valuation at the latest known
    prices, and the edits the user makes to the list. */
module Portfolio {
  import opened Seqs
  import opened Types

  // ---------------------------------------------------------------------------
  // Valuation getters
  // ---------------------------------------------------------------------------

  /** The price a holding is valued at: `currentPrice || buyPrice`, so a missing
      current price and a current price of 0 both fall back to the buy price. */
  function ValuationPrice(h: Holding): (p: real)
    ensures h.currentPrice.Some? && h.currentPrice.value != 0.0 ==> p == h.currentPrice.value
    ensures h.currentPrice.None? || h.currentPrice.value == 0.0 ==> p == h.buyPrice
  {
    match h.currentPrice
    case Some(price) => if price != 0.0 then price else h.buyPrice
    case None => h.buyPrice
  }

  /** What the holding cost when bought. */
  function Cost(h: Holding): real
  {
    h.amount * h.buyPrice
  }

  /** The percentage of a gain or loss over a cost, 0 when the cost is not positive. */
  function Percentage(gain: real, cost: real): (pct: real)
    ensures cost <= 0.0 ==> pct == 0.0
    ensures cost > 0.0 ==> pct * cost == gain * 100.0
  {
    if cost > 0.0 then (gain / cost) * 100.0 else 0.0
  }

  /** One element of `holdingsWithValues`. */
  function Valued(h: Holding): (v: HoldingWithValue)
    ensures v.holding == h
    ensures v.currentValue == h.amount * ValuationPrice(h)
    ensures v.profitLoss == v.currentValue - Cost(h)
    ensures Cost(h) <= 0.0 ==> v.profitLossPercentage == 0.0
    ensures Cost(h) > 0.0 ==> v.profitLossPercentage * Cost(h) == v.profitLoss * 100.0
  {
    var currentValue := h.amount * ValuationPrice(h);
    var profitLoss := currentValue - Cost(h);
    HoldingWithValue(h, currentValue, profitLoss, Percentage(profitLoss, Cost(h)))
  }

  /** `holdingsWithValues`: each holding, in order, with its valuation. */
  function HoldingsWithValues(hs: seq<Holding>): (r: seq<HoldingWithValue>)
    ensures |r| == |hs|
    ensures forall i :: 0 <= i < |r| ==> r[i].holding == hs[i]
    ensures forall i :: 0 <= i < |r| ==> r[i].profitLoss == r[i].currentValue - Cost(hs[i])
    ensures forall i :: 0 <= i < |r| ==> r[i] == Valued(hs[i])
  {
    seq(|hs|, i requires 0 <= i < |hs| => Valued(hs[i]))
  }

  /** `reduce((sum, h) => sum + h.currentValue, 0)`. */
  function TotalValue(vs: seq<HoldingWithValue>): real
  {
    if vs == [] then 0.0 else TotalValue(vs[..|vs| - 1]) + vs[|vs| - 1].currentValue
  }

  /** `reduce((sum, h) => sum + (h.amount * h.buyPrice), 0)`. */
  function TotalCost(vs: seq<HoldingWithValue>): real
  {
    if vs == [] then 0.0 else TotalCost(vs[..|vs| - 1]) + Cost(vs[|vs| - 1].holding)
  }

  /** Reference: the sum of the per-holding profit or loss. */
  function TotalProfitLoss(vs: seq<HoldingWithValue>): real
  {
    if vs == [] then 0.0 else TotalProfitLoss(vs[..|vs| - 1]) + vs[|vs| - 1].profitLoss
  }

  /** `summary`: totals over the holdings, with the same zero-cost guard as per holding. */
  function Summary(hs: seq<Holding>): (s: PortfolioSummary)
    ensures s.holdings == HoldingsWithValues(hs)
    ensures s.totalValue == TotalValue(s.holdings) && s.totalCost == TotalCost(s.holdings)
    ensures s.profitLoss == s.totalValue - s.totalCost
    ensures s.totalCost <= 0.0 ==> s.profitLossPercentage == 0.0
    ensures s.totalCost > 0.0 ==> s.profitLossPercentage * s.totalCost == s.profitLoss * 100.0
  {
    var vs := HoldingsWithValues(hs);
    var totalValue := TotalValue(vs);
    var totalCost := TotalCost(vs);
    var profitLoss := totalValue - totalCost;
    PortfolioSummary(totalValue, totalCost, profitLoss, Percentage(profitLoss, totalCost), vs)
  }

  lemma {:induction false} ProfitLossSums(vs: seq<HoldingWithValue>)
    requires forall i :: 0 <= i < |vs| ==> vs[i].profitLoss == vs[i].currentValue - Cost(vs[i].holding)
    ensures TotalProfitLoss(vs) == TotalValue(vs) - TotalCost(vs)
  {
    if vs != [] {
      ProfitLossSums(vs[..|vs| - 1]);
    }
  }

  /** The portfolio's profit or loss is the sum of the holdings' profits and losses. */
  lemma SummaryProfitLossIsSumOfHoldings(hs: seq<Holding>)
    ensures Summary(hs).profitLoss == TotalProfitLoss(HoldingsWithValues(hs))
  {
    ProfitLossSums(HoldingsWithValues(hs));
  }

  /** Appending a holding adds exactly its value and its cost to the totals. */
  lemma AppendedHoldingAddsToTotals(hs: seq<Holding>, h: Holding)
    ensures Summary(hs + [h]).totalValue == Summary(hs).totalValue + Valued(h).currentValue
    ensures Summary(hs + [h]).totalCost == Summary(hs).totalCost + Cost(h)
  {
    var vs := HoldingsWithValues(hs + [h]);
    assert vs[..|hs|] == HoldingsWithValues(hs);
  }

  /** An example: 2 coins bought at 100, now priced 150, are worth 300, a
      profit of 100, or 50%. */
  lemma ValuationExample(h: Holding)
    requires h.amount == 2.0 && h.buyPrice == 100.0 && h.currentPrice == Some(150.0)
    ensures Valued(h).currentValue == 300.0
    ensures Cost(h) == 200.0
    ensures Valued(h).profitLoss == 100.0
    ensures Valued(h).profitLossPercentage == 50.0
  {
  }

  /** `uniqueCoinIds`: the coin ids held, each once, in order of first appearance. */
  function CoinIds(hs: seq<Holding>): (ids: seq<string>)
    ensures |ids| == |hs| && forall i :: 0 <= i < |hs| ==> ids[i] == hs[i].coinId
  {
    seq(|hs|, i requires 0 <= i < |hs| => hs[i].coinId)
  }

  function UniqueCoinIds(hs: seq<Holding>): (ids: seq<string>)
    ensures NoDuplicates(ids)
    ensures forall c :: c in ids <==> c in CoinIds(hs)
    ensures forall i, j :: 0 <= i < j < |ids| ==> IndexOf(CoinIds(hs), ids[i]) < IndexOf(CoinIds(hs), ids[j])
  {
    UniqueKeepsFirstOccurrenceOrder(CoinIds(hs));
    Unique(CoinIds(hs))
  }

  // ---------------------------------------------------------------------------
  // Actions, as transitions of the holding list
  // ---------------------------------------------------------------------------

  /** What `addHolding` receives: a holding without its id. */
  datatype HoldingInput = HoldingInput(
    coinId: string,
    coinName: string,
    coinSymbol: string,
    coinImage: string,
    amount: real,
    buyPrice: real,
    buyDate: string,
    currentPrice: Option<real>)

  function NewHolding(input: HoldingInput, id: string): (h: Holding)
    ensures h.id == id && h.coinId == input.coinId && h.coinName == input.coinName
    ensures h.coinSymbol == input.coinSymbol && h.coinImage == input.coinImage
    ensures h.amount == input.amount && h.buyPrice == input.buyPrice
    ensures h.buyDate == input.buyDate && h.currentPrice == input.currentPrice
  {
    Holding(id, input.coinId, input.coinName, input.coinSymbol, input.coinImage,
            input.amount, input.buyPrice, input.buyDate, input.currentPrice)
  }

  /** A `Partial<Holding>`: `None` is a property the update object does not carry. */
  datatype HoldingPatch = HoldingPatch(
    id: Option<string>,
    coinId: Option<string>,
    coinName: Option<string>,
    coinSymbol: Option<string>,
    coinImage: Option<string>,
    amount: Option<real>,
    buyPrice: Option<real>,
    buyDate: Option<string>,
    currentPrice: Option<real>)

  const NoChanges := HoldingPatch(None, None, None, None, None, None, None, None, None)

  /** `{ ...holding, ...updates }`: a field the patch carries wins, the others are kept. */
  function Merge(h: Holding, u: HoldingPatch): (r: Holding)
    ensures u.id.Some? ==> r.id == u.id.value
    ensures u.id.None? ==> r.id == h.id
    ensures u.coinId.Some? ==> r.coinId == u.coinId.value
    ensures u.coinId.None? ==> r.coinId == h.coinId
    ensures u.coinName.Some? ==> r.coinName == u.coinName.value
    ensures u.coinName.None? ==> r.coinName == h.coinName
    ensures u.coinSymbol.Some? ==> r.coinSymbol == u.coinSymbol.value
    ensures u.coinSymbol.None? ==> r.coinSymbol == h.coinSymbol
    ensures u.coinImage.Some? ==> r.coinImage == u.coinImage.value
    ensures u.coinImage.None? ==> r.coinImage == h.coinImage
    ensures u.amount.Some? ==> r.amount == u.amount.value
    ensures u.amount.None? ==> r.amount == h.amount
    ensures u.buyPrice.Some? ==> r.buyPrice == u.buyPrice.value
    ensures u.buyPrice.None? ==> r.buyPrice == h.buyPrice
    ensures u.buyDate.Some? ==> r.buyDate == u.buyDate.value
    ensures u.buyDate.None? ==> r.buyDate == h.buyDate
    ensures u.currentPrice.Some? ==> r.currentPrice == u.currentPrice
    ensures u.currentPrice.None? ==> r.currentPrice == h.currentPrice
  {
    Holding(
      Pick(u.id, h.id),
      Pick(u.coinId, h.coinId),
      Pick(u.coinName, h.coinName),
      Pick(u.coinSymbol, h.coinSymbol),
      Pick(u.coinImage, h.coinImage),
      Pick(u.amount, h.amount),
      Pick(u.buyPrice, h.buyPrice),
      Pick(u.buyDate, h.buyDate),
      if u.currentPrice.Some? then u.currentPrice else h.currentPrice)
  }

  /** An empty patch changes nothing, and applying a patch twice is applying it once. */
  lemma MergeLaws(h: Holding, u: HoldingPatch)
    ensures Merge(h, NoChanges) == h
    ensures Merge(Merge(h, u), u) == Merge(h, u)
  {
  }

  function HasHoldingId(id: string): Holding -> bool { (h: Holding) => h.id == id }
  function LacksHoldingId(id: string): Holding -> bool { (h: Holding) => h.id != id }

  /** `updateHolding(id, updates)`: the first holding with that id is replaced by its
      merge with the update; an unknown id leaves the list as it was. */
  function UpdatedHoldings(hs: seq<Holding>, id: string, u: HoldingPatch): (r: seq<Holding>)
    ensures |r| == |hs|
    ensures forall i :: 0 <= i < |r| ==>
      r[i] == if IsFirst(hs, HasHoldingId(id), i) then Merge(hs[i], u) else hs[i]
    ensures (forall i :: 0 <= i < |hs| ==> hs[i].id != id) ==> r == hs
  {
    match FirstIndex(hs, HasHoldingId(id))
    case None => hs
    case Some(i) => hs[i := Merge(hs[i], u)]
  }

  /** `removeHolding(id)`: exactly the holdings with another id, in their order. */
  function WithoutHolding(hs: seq<Holding>, id: string): (r: seq<Holding>)
    ensures forall h :: h in r <==> h in hs && h.id != id
  {
    Filter(hs, LacksHoldingId(id))
  }

  /** Removal works holding by holding: a holding with another id is kept, in place
      and as often as it occurs; one with the id is dropped. So the survivors keep
      their order. */
  lemma WithoutHoldingKeepsOrder(front: seq<Holding>, back: seq<Holding>, h: Holding, id: string)
    ensures WithoutHolding(front + back, id) == WithoutHolding(front, id) + WithoutHolding(back, id)
    ensures WithoutHolding([h], id) == if h.id != id then [h] else []
  {
    FilterAppend(front, back, LacksHoldingId(id));
  }

  /** Removing the id of a just-added holding undoes the addition, provided the id was fresh. */
  lemma RemoveUndoesAdd(hs: seq<Holding>, input: HoldingInput, id: string)
    requires forall i :: 0 <= i < |hs| ==> hs[i].id != id
    ensures WithoutHolding(hs + [NewHolding(input, id)], id) == hs
  {
    FilterAppend(hs, [NewHolding(input, id)], LacksHoldingId(id));
    FilterKeepsAll(hs, LacksHoldingId(id));
  }

  /** The price a holding gets from a refresh: `prices[coinId] ?? currentPrice`, so a
      price of 0 in the map is applied and only a missing key keeps the old value. */
  function RefreshedPrice(h: Holding, prices: PriceMap): Option<real>
  {
    if h.coinId in prices then Some(prices[h.coinId]) else h.currentPrice
  }

  /** `updatePrices(prices)`: only `currentPrice` changes, as `RefreshedPrice` says. */
  function PricesUpdated(hs: seq<Holding>, prices: PriceMap): (r: seq<Holding>)
    ensures |r| == |hs|
    ensures forall i :: 0 <= i < |r| ==> r[i].(currentPrice := hs[i].currentPrice) == hs[i]
    ensures forall i :: 0 <= i < |r| ==> hs[i].coinId in prices ==> r[i].currentPrice == Some(prices[hs[i].coinId])
    ensures forall i :: 0 <= i < |r| ==> hs[i].coinId !in prices ==> r[i] == hs[i]
  {
    seq(|hs|, i requires 0 <= i < |hs| => hs[i].(currentPrice := RefreshedPrice(hs[i], prices)))
  }

  /** Refreshing twice with the same map is refreshing once; an empty map changes nothing. */
  lemma PricesUpdatedLaws(hs: seq<Holding>, prices: PriceMap)
    ensures PricesUpdated(PricesUpdated(hs, prices), prices) == PricesUpdated(hs, prices)
    ensures PricesUpdated(hs, map[]) == hs
  {
  }

  /** After a refresh, a holding whose coin got a non-zero price is valued at that
      price; a coin priced 0 is stored as 0 yet valued at its buy price, so its
      profit or loss reads 0. */
  lemma RefreshedValuation(hs: seq<Holding>, prices: PriceMap, i: int)
    requires 0 <= i < |hs| && hs[i].coinId in prices
    ensures var v := HoldingsWithValues(PricesUpdated(hs, prices))[i];
      if prices[hs[i].coinId] != 0.0
      then v.currentValue == hs[i].amount * prices[hs[i].coinId]
      else v.holding.currentPrice == Some(0.0) && v.profitLoss == 0.0
  {
  }

  // ---------------------------------------------------------------------------
  // The store
  // ---------------------------------------------------------------------------

  class PortfolioStore {
    var holdings: seq<Holding>

    constructor ()
      ensures holdings == []
    {
      holdings := [];
    }

    /** `addHolding`: appends one holding under a fresh id. */
    method AddHolding(input: HoldingInput, id: string)
      modifies this
      ensures holdings == old(holdings) + [NewHolding(input, id)]
    {
      holdings := holdings + [NewHolding(input, id)];
    }

    method UpdateHolding(id: string, updates: HoldingPatch)
      modifies this
      ensures holdings == UpdatedHoldings(old(holdings), id, updates)
    {
      holdings := UpdatedHoldings(holdings, id, updates);
    }

    method RemoveHolding(id: string)
      modifies this
      ensures holdings == WithoutHolding(old(holdings), id)
    {
      holdings := WithoutHolding(holdings, id);
    }

    method UpdatePrices(prices: PriceMap)
      modifies this
      ensures holdings == PricesUpdated(old(holdings), prices)
    {
      holdings := PricesUpdated(holdings, prices);
    }

    method ClearPortfolio()
      modifies this
      ensures holdings == []
    {
      holdings := [];
    }
  }
}
