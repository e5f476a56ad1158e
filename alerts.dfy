/** The alerts store: a list of price alerts, each a small state machine.
    `isActive` suspends an alert without touching its trigger state; `isTriggered`
    is set by a price check and stays set until the user resets it. */
module Alerts {
  import opened Seqs
  import opened Types

  // ---------------------------------------------------------------------------
  // Getters
  // ---------------------------------------------------------------------------

  function IsArmed(): PriceAlert -> bool { (a: PriceAlert) => a.isActive && !a.isTriggered }
  function IsTriggered(): PriceAlert -> bool { (a: PriceAlert) => a.isTriggered }
  function IsForCoin(coinId: string): PriceAlert -> bool { (a: PriceAlert) => a.coinId == coinId }
  function HasId(id: string): PriceAlert -> bool { (a: PriceAlert) => a.id == id }
  function LacksId(id: string): PriceAlert -> bool { (a: PriceAlert) => a.id != id }

  /** `activeAlerts`: the alerts that are switched on and have not fired yet. */
  function ActiveAlerts(alerts: seq<PriceAlert>): (r: seq<PriceAlert>)
    ensures forall a :: a in r <==> a in alerts && a.isActive && !a.isTriggered
  {
    Filter(alerts, IsArmed())
  }

  /** `triggeredAlerts`: the alerts that have fired, whether active or not. */
  function TriggeredAlerts(alerts: seq<PriceAlert>): (r: seq<PriceAlert>)
    ensures forall a :: a in r <==> a in alerts && a.isTriggered
  {
    Filter(alerts, IsTriggered())
  }

  /** `getAlertsByCoin(coinId)`. */
  function AlertsByCoin(alerts: seq<PriceAlert>, coinId: string): (r: seq<PriceAlert>)
    ensures forall a :: a in r <==> a in alerts && a.coinId == coinId
  {
    Filter(alerts, IsForCoin(coinId))
  }

  /** The getters work alert by alert: each keeps or drops one alert at a time, so the
      alerts they list keep their order and appear as often as in the store. */
  lemma GettersKeepOrder(front: seq<PriceAlert>, back: seq<PriceAlert>, a: PriceAlert, coinId: string)
    ensures ActiveAlerts(front + back) == ActiveAlerts(front) + ActiveAlerts(back)
    ensures TriggeredAlerts(front + back) == TriggeredAlerts(front) + TriggeredAlerts(back)
    ensures AlertsByCoin(front + back, coinId) == AlertsByCoin(front, coinId) + AlertsByCoin(back, coinId)
    ensures ActiveAlerts([a]) == if a.isActive && !a.isTriggered then [a] else []
    ensures TriggeredAlerts([a]) == if a.isTriggered then [a] else []
    ensures AlertsByCoin([a], coinId) == if a.coinId == coinId then [a] else []
  {
    FilterAppend(front, back, IsArmed());
    FilterAppend(front, back, IsTriggered());
    FilterAppend(front, back, IsForCoin(coinId));
    FilterOne(a, IsArmed());
    FilterOne(a, IsTriggered());
    FilterOne(a, IsForCoin(coinId));
  }

  /** No alert is both active and triggered, so together the two getters list
      each alert at most once: `activeAlertCount` plus the number of triggered
      alerts never exceeds `alertCount`. */
  lemma {:induction false} ActiveAndTriggeredAreDisjoint(alerts: seq<PriceAlert>)
    ensures forall a :: a in ActiveAlerts(alerts) ==> a !in TriggeredAlerts(alerts)
    ensures |ActiveAlerts(alerts)| + |TriggeredAlerts(alerts)| <= |alerts|
  {
    if alerts != [] {
      ActiveAndTriggeredAreDisjoint(alerts[1..]);
    }
  }

  // ---------------------------------------------------------------------------
  // Actions, as transitions of the alert list
  // ---------------------------------------------------------------------------

  /** What `addAlert` receives: an alert without `id`, `isTriggered` and `createdAt`.
      The optional `triggeredAt` is not omitted by the argument type, so the spread
      copies it when present. */
  datatype AlertInput = AlertInput(
    coinId: string,
    coinName: string,
    coinSymbol: string,
    coinImage: string,
    targetPrice: real,
    direction: Direction,
    isActive: bool,
    triggeredAt: Option<string>)

  /** The record `addAlert` appends; the generated id and the creation time are parameters. */
  function NewAlert(input: AlertInput, id: string, createdAt: string): (a: PriceAlert)
    ensures a.id == id && a.createdAt == createdAt && !a.isTriggered
    ensures a.coinId == input.coinId && a.coinName == input.coinName
    ensures a.coinSymbol == input.coinSymbol && a.coinImage == input.coinImage
    ensures a.targetPrice == input.targetPrice && a.direction == input.direction
    ensures a.isActive == input.isActive && a.triggeredAt == input.triggeredAt
  {
    PriceAlert(id, input.coinId, input.coinName, input.coinSymbol, input.coinImage,
               input.targetPrice, input.direction, input.isActive, false, createdAt,
               input.triggeredAt)
  }

  /** `removeAlert(id)`: exactly the alerts with another id, in their order. */
  function WithoutAlert(alerts: seq<PriceAlert>, id: string): (r: seq<PriceAlert>)
    ensures forall a :: a in r <==> a in alerts && a.id != id
  {
    Filter(alerts, LacksId(id))
  }

  /** Removal works alert by alert: an alert with another id is kept, in place and
      as often as it occurs; one with the id is dropped. So the survivors keep their
      order. */
  lemma WithoutAlertKeepsOrder(front: seq<PriceAlert>, back: seq<PriceAlert>, a: PriceAlert, id: string)
    ensures WithoutAlert(front + back, id) == WithoutAlert(front, id) + WithoutAlert(back, id)
    ensures WithoutAlert([a], id) == if a.id != id then [a] else []
  {
    FilterAppend(front, back, LacksId(id));
  }

  /** `toggleAlert(id)`: flips `isActive` of the first alert with that id; every other
      alert, and every other field (`isTriggered` included), is unchanged. */
  function ToggledAlerts(alerts: seq<PriceAlert>, id: string): (r: seq<PriceAlert>)
    ensures |r| == |alerts|
    ensures forall i :: 0 <= i < |r| ==>
      r[i] == if IsFirst(alerts, HasId(id), i) then alerts[i].(isActive := !alerts[i].isActive) else alerts[i]
    ensures forall i :: 0 <= i < |r| ==> r[i].isTriggered == alerts[i].isTriggered
    ensures (forall i :: 0 <= i < |alerts| ==> alerts[i].id != id) ==> r == alerts
  {
    match FirstIndex(alerts, HasId(id))
    case None => alerts
    case Some(i) => alerts[i := alerts[i].(isActive := !alerts[i].isActive)]
  }

  /** `resetTriggeredAlert(id)`: re-arms the first alert with that id. */
  function ResetAlerts(alerts: seq<PriceAlert>, id: string): (r: seq<PriceAlert>)
    ensures |r| == |alerts|
    ensures forall i :: 0 <= i < |r| ==>
      r[i] == if IsFirst(alerts, HasId(id), i) then alerts[i].(isTriggered := false, triggeredAt := None) else alerts[i]
    ensures (forall i :: 0 <= i < |alerts| ==> alerts[i].id != id) ==> r == alerts
  {
    match FirstIndex(alerts, HasId(id))
    case None => alerts
    case Some(i) => alerts[i := alerts[i].(isTriggered := false, triggeredAt := None)]
  }

  // ---------------------------------------------------------------------------
  // checkAlerts
  // ---------------------------------------------------------------------------

  /** The crossing test; equality triggers in both directions. */
  predicate Crosses(direction: Direction, price: real, target: real)
  {
    match direction
    case Above => price >= target
    case Below => price <= target
  }

  /** Whether `checkAlerts` fires this alert: it must be active and not yet triggered,
      its coin's price must be present and non-zero (`!currentPrice` skips both a
      missing key and 0), and the price must cross the target. */
  predicate Fires(a: PriceAlert, prices: PriceMap)
  {
    a.isActive && !a.isTriggered && a.coinId in prices && prices[a.coinId] != 0.0
    && Crosses(a.direction, prices[a.coinId], a.targetPrice)
  }

  /** One alert after the check at time `now`. */
  function Evaluated(a: PriceAlert, prices: PriceMap, now: string): (r: PriceAlert)
    ensures r.isTriggered == (a.isTriggered || Fires(a, prices))
    ensures r.(isTriggered := a.isTriggered, triggeredAt := a.triggeredAt) == a
    ensures !Fires(a, prices) ==> r == a
    ensures Fires(a, prices) ==> r.triggeredAt == Some(now)
  {
    if Fires(a, prices) then a.(isTriggered := true, triggeredAt := Some(now)) else a
  }

  /** The alert list after `checkAlerts(prices)` at time `now`. */
  function CheckedAlerts(alerts: seq<PriceAlert>, prices: PriceMap, now: string): (r: seq<PriceAlert>)
    ensures |r| == |alerts|
  {
    seq(|alerts|, i requires 0 <= i < |alerts| => Evaluated(alerts[i], prices, now))
  }

  /** What a check does to the list: an alert that was inactive or already triggered
      is left exactly as it was; an alert ends up triggered iff it was or it fires;
      and nothing but `isTriggered` and `triggeredAt` ever changes. */
  lemma CheckChangesOnlyEligibleAlerts(alerts: seq<PriceAlert>, prices: PriceMap, now: string)
    ensures var r := CheckedAlerts(alerts, prices, now);
      (forall i :: 0 <= i < |r| ==> !alerts[i].isActive || alerts[i].isTriggered ==> r[i] == alerts[i]) &&
      (forall i :: 0 <= i < |r| ==> r[i].isTriggered == (alerts[i].isTriggered || Fires(alerts[i], prices))) &&
      (forall i :: 0 <= i < |r| ==>
        r[i].(isTriggered := alerts[i].isTriggered, triggeredAt := alerts[i].triggeredAt) == alerts[i])
  {
  }

  /** Checking one more alert appends its evaluation. */
  lemma CheckedAlertsStep(done: seq<PriceAlert>, a: PriceAlert, prices: PriceMap, now: string)
    ensures CheckedAlerts(done + [a], prices, now) == CheckedAlerts(done, prices, now) + [Evaluated(a, prices, now)]
    ensures NewlyTriggered(done + [a], prices, now) ==
      NewlyTriggered(done, prices, now) + (if Fires(a, prices) then [Evaluated(a, prices, now)] else [])
  {
    assert (done + [a])[..|done|] == done;
  }

  /** One turn of the check's loop over `before`: the first `i` alerts have been
      checked and the rest are as they were; evaluating alert `i` extends both the
      checked prefix and the batch by that alert. */
  lemma CheckStep(before: seq<PriceAlert>, current: seq<PriceAlert>, i: int, prices: PriceMap, now: string)
    requires 0 <= i < |before|
    requires current == CheckedAlerts(before[..i], prices, now) + before[i..]
    ensures i < |current| == |before| && current[i] == before[i]
    ensures current[i := Evaluated(before[i], prices, now)] ==
      CheckedAlerts(before[..i + 1], prices, now) + before[i + 1..]
    ensures NewlyTriggered(before[..i + 1], prices, now) ==
      NewlyTriggered(before[..i], prices, now) +
      (if Fires(before[i], prices) then [Evaluated(before[i], prices, now)] else [])
  {
    assert before[..i + 1] == before[..i] + [before[i]];
    CheckedAlertsStep(before[..i], before[i], prices, now);
  }

  /** The batch `checkAlerts` returns, accumulated as its `forEach` walks the list. */
  function NewlyTriggered(alerts: seq<PriceAlert>, prices: PriceMap, now: string): (batch: seq<PriceAlert>)
    ensures |batch| <= |alerts|
    ensures forall a :: a in batch ==> a.isTriggered && a.triggeredAt == Some(now)
  {
    if alerts == [] then []
    else
      var last := alerts[|alerts| - 1];
      NewlyTriggered(alerts[..|alerts| - 1], prices, now)
        + (if Fires(last, prices) then [Evaluated(last, prices, now)] else [])
  }

  /** Reference definition: the alerts of `after` that were not triggered in `before`
      and are triggered in `after`, in list order. */
  function Promoted(before: seq<PriceAlert>, after: seq<PriceAlert>): (r: seq<PriceAlert>)
    requires |before| == |after|
    ensures forall a :: a in r ==> a in after && a.isTriggered
  {
    if before == [] then []
    else
      var n := |before| - 1;
      Promoted(before[..n], after[..n])
        + (if !before[n].isTriggered && after[n].isTriggered then [after[n]] else [])
  }

  /** The returned batch is exactly the alerts that went from untriggered to triggered
      in this call, in list order. */
  lemma {:induction false} BatchIsPromotedAlerts(alerts: seq<PriceAlert>, prices: PriceMap, now: string)
    ensures NewlyTriggered(alerts, prices, now) == Promoted(alerts, CheckedAlerts(alerts, prices, now))
  {
    if alerts != [] {
      var n := |alerts| - 1;
      BatchIsPromotedAlerts(alerts[..n], prices, now);
      assert CheckedAlerts(alerts, prices, now)[..n] == CheckedAlerts(alerts[..n], prices, now);
    }
  }

  /** A second check with the same prices, at any later time, fires nothing and
      changes nothing: a triggered alert is never re-triggered. */
  lemma {:induction false} CheckIsIdempotent(alerts: seq<PriceAlert>, prices: PriceMap, now: string, later: string)
    ensures CheckedAlerts(CheckedAlerts(alerts, prices, now), prices, later) == CheckedAlerts(alerts, prices, now)
    ensures NewlyTriggered(CheckedAlerts(alerts, prices, now), prices, later) == []
  {
    var checked := CheckedAlerts(alerts, prices, now);
    assert forall i :: 0 <= i < |checked| ==> !Fires(checked[i], prices);
    NothingFiresNothingReturned(checked, prices, later);
  }

  lemma {:induction false} NothingFiresNothingReturned(alerts: seq<PriceAlert>, prices: PriceMap, now: string)
    requires forall i :: 0 <= i < |alerts| ==> !Fires(alerts[i], prices)
    ensures NewlyTriggered(alerts, prices, now) == []
  {
    if alerts != [] {
      NothingFiresNothingReturned(alerts[..|alerts| - 1], prices, now);
    }
  }

  /** Toggling twice restores the list; deactivation never resets a triggered alert. */
  lemma ToggleTwiceRestores(alerts: seq<PriceAlert>, id: string)
    ensures ToggledAlerts(ToggledAlerts(alerts, id), id) == alerts
  {
    var once := ToggledAlerts(alerts, id);
    assert forall i :: IsFirst(once, HasId(id), i) <==> IsFirst(alerts, HasId(id), i);
  }

  /** The per-alert state machine: after a reset, an active alert whose price still
      crosses its target fires again on the next check. */
  lemma ResetRearms(alerts: seq<PriceAlert>, id: string, i: int, prices: PriceMap, now: string)
    requires IsFirst(alerts, HasId(id), i) && alerts[i].isActive
    requires alerts[i].coinId in prices && prices[alerts[i].coinId] != 0.0
    requires Crosses(alerts[i].direction, prices[alerts[i].coinId], alerts[i].targetPrice)
    ensures CheckedAlerts(ResetAlerts(alerts, id), prices, now)[i].isTriggered
    ensures CheckedAlerts(ResetAlerts(alerts, id), prices, now)[i].triggeredAt == Some(now)
  {
    assert Fires(ResetAlerts(alerts, id)[i], prices);
  }

  /** Removing the id of a just-added alert undoes the addition, provided the id was fresh. */
  lemma RemoveUndoesAdd(alerts: seq<PriceAlert>, input: AlertInput, id: string, now: string)
    requires forall i :: 0 <= i < |alerts| ==> alerts[i].id != id
    ensures WithoutAlert(alerts + [NewAlert(input, id, now)], id) == alerts
  {
    FilterAppend(alerts, [NewAlert(input, id, now)], LacksId(id));
    FilterKeepsAll(alerts, LacksId(id));
  }

  /** The crossing test is inclusive and an alert fires once: an armed alert at 50000
      above fires at a price of exactly 50000, and a second check at 60000 returns nothing. */
  lemma BoundaryPriceFiresOnce(a: PriceAlert, now: string, later: string)
    requires a.targetPrice == 50000.0 && a.direction == Above && a.isActive && !a.isTriggered
    ensures NewlyTriggered([a], map[a.coinId := 50000.0], now) == [a.(isTriggered := true, triggeredAt := Some(now))]
    ensures NewlyTriggered(CheckedAlerts([a], map[a.coinId := 50000.0], now), map[a.coinId := 60000.0], later) == []
  {
    var checked := CheckedAlerts([a], map[a.coinId := 50000.0], now);
    assert checked[..0] == [];
    assert NewlyTriggered(checked, map[a.coinId := 60000.0], later)
        == NewlyTriggered(checked[..0], map[a.coinId := 60000.0], later);
  }

  // ---------------------------------------------------------------------------
  // The store
  // ---------------------------------------------------------------------------

  class AlertStore {
    var alerts: seq<PriceAlert>

    constructor ()
      ensures alerts == []
    {
      alerts := [];
    }

    /** `addAlert`: appends one alert with a fresh id, `isTriggered = false`, created `now`. */
    method AddAlert(input: AlertInput, id: string, now: string)
      modifies this
      ensures alerts == old(alerts) + [NewAlert(input, id, now)]
    {
      alerts := alerts + [NewAlert(input, id, now)];
    }

    method RemoveAlert(id: string)
      modifies this
      ensures alerts == WithoutAlert(old(alerts), id)
    {
      alerts := WithoutAlert(alerts, id);
    }

    method ToggleAlert(id: string)
      modifies this
      ensures alerts == ToggledAlerts(old(alerts), id)
    {
      alerts := ToggledAlerts(alerts, id);
    }

    /** The body of `checkAlerts`' `forEach` for one alert: whether it fires, and the
        alert as it is afterwards. */
    static method CheckOne(alert: PriceAlert, prices: PriceMap, now: string) returns (fired: bool, updated: PriceAlert)
      ensures fired == Fires(alert, prices)
      ensures updated == Evaluated(alert, prices, now)
    {
      fired, updated := false, alert;
      if alert.isActive && !alert.isTriggered {
        if alert.coinId in prices && prices[alert.coinId] != 0.0 {
          var currentPrice := prices[alert.coinId];
          var shouldTrigger :=
            (alert.direction == Above && currentPrice >= alert.targetPrice) ||
            (alert.direction == Below && currentPrice <= alert.targetPrice);
          if shouldTrigger {
            fired, updated := true, alert.(isTriggered := true, triggeredAt := Some(now));
          }
        }
      }
    }

    /** `checkAlerts(prices)`: walks the list once, fires every eligible alert whose
        price crosses its target, and returns the alerts it fired. */
    method CheckAlerts(prices: PriceMap, now: string) returns (batch: seq<PriceAlert>)
      modifies this
      ensures alerts == CheckedAlerts(old(alerts), prices, now)
      ensures batch == NewlyTriggered(old(alerts), prices, now)
    {
      ghost var before := alerts;
      batch := [];
      var i := 0;
      while i < |alerts|
        invariant 0 <= i <= |before|
        invariant alerts == CheckedAlerts(before[..i], prices, now) + before[i..]
        invariant batch == NewlyTriggered(before[..i], prices, now)
      {
        CheckStep(before, alerts, i, prices, now);
        var alert := alerts[i];
        var fired, updated := CheckOne(alert, prices, now);
        if fired {
          alerts := alerts[i := updated];
          batch := batch + [updated];
        } else {
          assert alerts == alerts[i := updated];
        }
        i := i + 1;
      }
      assert before[..i] == before;
      assert before[i..] == [];
    }

    method ResetTriggeredAlert(id: string)
      modifies this
      ensures alerts == ResetAlerts(old(alerts), id)
    {
      alerts := ResetAlerts(alerts, id);
    }

    method ClearAllAlerts()
      modifies this
      ensures alerts == []
    {
      alerts := [];
    }
  }
}
