/** The refresh cycle that keeps coin prices, holdings and alerts current, with its
    re-entrancy flag and its optional timer.

    A cycle suspends once, while the prices are fetched. It is modelled in two
    steps: `BeginCycle`, the part that runs when the cycle is entered (the guard
    and the flag), and `CompleteCycle`, the part that runs when the fetch has
    answered. Between the two, another tick of the timer finds `isUpdating` set
    and does nothing. `UpdatePrices` is a cycle with no tick in between. */
module PriceUpdates {
  import opened Seqs
  import opened Types
  import Coins
  import Portfolio
  import Alerts

  /** The price map the cycle builds: each coin id maps to that coin's price, and a
      later coin with the same id overwrites an earlier one. */
  function PriceMapOf(coins: seq<SimpleCoin>): (m: PriceMap)
    ensures m.Keys == set c | c in coins :: c.id
  {
    if coins == [] then map[]
    else
      var init, last := coins[..|coins| - 1], coins[|coins| - 1];
      assert coins == init + [last];
      PriceMapOf(init)[last.id := last.price]
  }

  /** A coin's price is in the map unless a later coin has the same id. */
  lemma {:induction false} LastPriceWins(coins: seq<SimpleCoin>, i: int)
    requires 0 <= i < |coins|
    requires forall j :: i < j < |coins| ==> coins[j].id != coins[i].id
    ensures coins[i].id in PriceMapOf(coins) && PriceMapOf(coins)[coins[i].id] == coins[i].price
  {
    if i < |coins| - 1 {
      LastPriceWins(coins[..|coins| - 1], i);
    }
  }

  /** The `forEach` that fills `priceMap`. */
  method BuildPriceMap(coins: seq<SimpleCoin>) returns (m: PriceMap)
    ensures m == PriceMapOf(coins)
  {
    m := map[];
    for i := 0 to |coins|
      invariant m == PriceMapOf(coins[..i])
    {
      assert coins[..i + 1][..i] == coins[..i];
      m := m[coins[i].id := coins[i].price];
    }
    assert coins[..|coins|] == coins;
  }

  class PriceUpdater {
    const coinStore: Coins.CoinStore
    const portfolio: Portfolio.PortfolioStore
    const alertStore: Alerts.AlertStore
    var isUpdating: bool
    /** The handle of the running interval timer, if any. */
    var intervalId: Option<nat>
    var lastUpdate: Option<string>

    constructor (coinStore: Coins.CoinStore, portfolio: Portfolio.PortfolioStore, alertStore: Alerts.AlertStore)
      ensures this.coinStore == coinStore && this.portfolio == portfolio && this.alertStore == alertStore
      ensures !isUpdating && intervalId == None && lastUpdate == None
    {
      this.coinStore := coinStore;
      this.portfolio := portfolio;
      this.alertStore := alertStore;
      isUpdating := false;
      intervalId := None;
      lastUpdate := None;
    }

    /** Entering a cycle: a cycle already in flight makes this a no-op; otherwise the
        flag is raised and the cycle goes on to fetch. */
    method BeginCycle() returns (entered: bool)
      modifies this
      ensures entered == !old(isUpdating)
      ensures isUpdating
      ensures intervalId == old(intervalId) && lastUpdate == old(lastUpdate)
    {
      if isUpdating {
        return false;
      }
      isUpdating := true;
      return true;
    }

    /** The rest of a cycle, once the fetch has answered (`response` is `None` when
        it failed). The coin store absorbs a failed fetch, so the cycle goes on with
        the prices the coin list already has. Holdings are re-priced and alerts
        checked only when there is at least one holding. `storageThrows` says that
        saving or announcing the fired alerts throws; that can only happen when some
        alert fired, and it skips `lastUpdate`. The flag is lowered in every case. */
    method CompleteCycle(response: Option<map<string, PriceQuote>>, now: string, storageThrows: bool)
      requires isUpdating
      modifies this, coinStore, portfolio, alertStore
      ensures !isUpdating && intervalId == old(intervalId)
      ensures coinStore.coins == Coins.RefreshedCoins(old(coinStore.coins), response)
      ensures coinStore.lastUpdated ==
        if old(coinStore.coins) != [] && response.Some? then Some(now) else old(coinStore.lastUpdated)
      ensures coinStore.searchQuery == old(coinStore.searchQuery)
      ensures var prices := PriceMapOf(coinStore.coins);
        if old(portfolio.holdings) != [] then
          portfolio.holdings == Portfolio.PricesUpdated(old(portfolio.holdings), prices) &&
          alertStore.alerts == Alerts.CheckedAlerts(old(alertStore.alerts), prices, now)
        else
          portfolio.holdings == old(portfolio.holdings) && alertStore.alerts == old(alertStore.alerts)
      ensures var threw := storageThrows && old(portfolio.holdings) != [] &&
          Alerts.NewlyTriggered(old(alertStore.alerts), PriceMapOf(coinStore.coins), now) != [];
        lastUpdate == if threw then old(lastUpdate) else Some(now)
    {
      var threw := false;
      coinStore.UpdatePrices(response, now);
      if |portfolio.holdings| > 0 {
        var priceMap := BuildPriceMap(coinStore.coins);
        portfolio.UpdatePrices(priceMap);
        var fired := alertStore.CheckAlerts(priceMap, now);
        threw := storageThrows && |fired| > 0;
      }
      if !threw {
        lastUpdate := Some(now);
      }
      isUpdating := false;
    }

    /** `updatePrices` run to completion: a no-op while another cycle is in flight. */
    method UpdatePrices(response: Option<map<string, PriceQuote>>, now: string, storageThrows: bool)
      modifies this, coinStore, portfolio, alertStore
      ensures old(isUpdating) ==>
        isUpdating && intervalId == old(intervalId) && lastUpdate == old(lastUpdate) &&
        coinStore.coins == old(coinStore.coins) && coinStore.lastUpdated == old(coinStore.lastUpdated) &&
        coinStore.searchQuery == old(coinStore.searchQuery) &&
        portfolio.holdings == old(portfolio.holdings) && alertStore.alerts == old(alertStore.alerts)
      ensures !old(isUpdating) ==> !isUpdating && intervalId == old(intervalId)
      ensures !old(isUpdating) ==>
        coinStore.coins == Coins.RefreshedCoins(old(coinStore.coins), response) &&
        coinStore.lastUpdated ==
          (if old(coinStore.coins) != [] && response.Some? then Some(now) else old(coinStore.lastUpdated)) &&
        coinStore.searchQuery == old(coinStore.searchQuery)
      ensures !old(isUpdating) ==>
        var prices := PriceMapOf(coinStore.coins);
        if old(portfolio.holdings) != [] then
          portfolio.holdings == Portfolio.PricesUpdated(old(portfolio.holdings), prices) &&
          alertStore.alerts == Alerts.CheckedAlerts(old(alertStore.alerts), prices, now)
        else
          portfolio.holdings == old(portfolio.holdings) && alertStore.alerts == old(alertStore.alerts)
      ensures !old(isUpdating) ==>
        var threw := storageThrows && old(portfolio.holdings) != [] &&
          Alerts.NewlyTriggered(old(alertStore.alerts), PriceMapOf(coinStore.coins), now) != [];
        lastUpdate == if threw then old(lastUpdate) else Some(now)
    {
      var entered := BeginCycle();
      if entered {
        CompleteCycle(response, now, storageThrows);
      }
    }

    /** `startUpdates(timer)`: with a timer already set, nothing happens; otherwise a
        cycle is entered right away and the timer is recorded. */
    method StartUpdates(timer: nat)
      modifies this
      ensures old(intervalId).Some? ==>
        intervalId == old(intervalId) && isUpdating == old(isUpdating) && lastUpdate == old(lastUpdate)
      ensures old(intervalId).None? ==> intervalId == Some(timer) && isUpdating && lastUpdate == old(lastUpdate)
    {
      if intervalId.Some? {
        return;
      }
      var _ := BeginCycle();
      intervalId := Some(timer);
    }

    /** `stopUpdates`: clears the timer; a cycle in flight still completes. */
    method StopUpdates()
      modifies this
      ensures intervalId == None
      ensures isUpdating == old(isUpdating) && lastUpdate == old(lastUpdate)
    {
      if intervalId.Some? {
        intervalId := None;
      }
    }
  }
}
