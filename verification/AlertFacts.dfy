/** What a refresh leaves behind, whatever alerts it starts from. */
module AlertFacts {
  import opened Wrappers
  import opened Alerts

  lemma {:induction false} NoneStale(items: seq<Item>)
    ensures StaleCount(items) == 0 <==> forall i :: 0 <= i < |items| ==> !Stale(items[i])
  {
    if items != [] {
      var n := |items| - 1;
      NoneStale(items[..n]);
      assert forall i :: 0 <= i < n ==> items[..n][i] == items[i];
    }
  }

  /** After a sync every live item's status is the computed one, and syncing again updates nothing. */
  lemma SyncSettles(items: seq<Item>)
    ensures forall i :: 0 <= i < |items| && !items[i].deleted ==>
              Synced(items)[i].status == ComputeInventoryStatus(Synced(items)[i])
    ensures StaleCount(Synced(items)) == 0 && Synced(Synced(items)) == Synced(items)
  {
    NoneStale(Synced(items));
  }

  /** Every alert is for an existing item. */
  predicate ForItems(items: seq<Item>, alerts: seq<Alert>)
  {
    forall j :: 0 <= j < |alerts| ==> alerts[j].item < |items|
  }

  lemma {:induction false} StockAlertFor(items: seq<Item>, alerts: seq<Alert>, n: nat, i: nat)
    requires n <= |items|
    ensures forall j :: 0 <= j < |NewStockAlerts(items, alerts, n)| ==>
              var a := NewStockAlerts(items, alerts, n)[j];
              a.item < n && IsLow(items[a.item]) && !Unresolved(alerts, a.item)
              && a.kind == StockKind(items[a.item]) && !a.resolved
    ensures i < n && IsLow(items[i]) && !Unresolved(alerts, i) ==>
              Alert(i, StockKind(items[i]), false) in NewStockAlerts(items, alerts, n)
  {
    if n > 0 {
      StockAlertFor(items, alerts, n - 1, i);
    }
  }

  lemma {:induction false} ExpiryAlertFor(items: seq<Item>, alerts: seq<Alert>, now: int, horizon: int, n: nat, i: nat)
    requires n <= |items|
    ensures forall j :: 0 <= j < |NewExpiryAlerts(items, alerts, now, horizon, n)| ==>
              var a := NewExpiryAlerts(items, alerts, now, horizon, n)[j];
              a.item < n && Expiring(items[a.item], now, horizon) && !UnresolvedOf(alerts, a.item, EXPIRING_SOON)
              && a.kind == EXPIRING_SOON && !a.resolved
    ensures i < n && Expiring(items[i], now, horizon) && !UnresolvedOf(alerts, i, EXPIRING_SOON) ==>
              Alert(i, EXPIRING_SOON, false) in NewExpiryAlerts(items, alerts, now, horizon, n)
  {
    if n > 0 {
      ExpiryAlertFor(items, alerts, now, horizon, n - 1, i);
    }
  }

  /** Marking alerts as OUT_OF_STOCK neither opens nor closes any. */
  lemma StockAlertsCover(items: seq<Item>, alerts: seq<Alert>, order: seq<nat>, i: nat)
    requires i < |items|
    ensures Unresolved(WithStockAlerts(items, alerts, order), i) <==> Unresolved(alerts, i) || IsLow(items[i])
  {
    var after, n := WithStockAlerts(items, alerts, order), |alerts|;
    StockAlertFor(items, alerts, |items|, i);
    assert forall j :: 0 <= j < n ==> after[j].item == alerts[j].item && after[j].resolved == alerts[j].resolved;
    if Unresolved(alerts, i) {
      var j :| 0 <= j < n && alerts[j].item == i && !alerts[j].resolved;
      assert after[j].item == i && !after[j].resolved;
    } else if IsLow(items[i]) {
      var j :| 0 <= j < |NewStockAlerts(items, alerts, |items|)|
               && NewStockAlerts(items, alerts, |items|)[j] == Alert(i, StockKind(items[i]), false);
      assert after[n + j].item == i;
    }
  }

  lemma ExpiryAlertsCover(items: seq<Item>, alerts: seq<Alert>, now: int, horizon: int, i: nat)
    requires i < |items|
    ensures Unresolved(alerts, i) ==> Unresolved(WithExpiryAlerts(items, alerts, now, horizon), i)
  {
    if Unresolved(alerts, i) {
      var j :| 0 <= j < |alerts| && alerts[j].item == i && !alerts[j].resolved;
      assert WithExpiryAlerts(items, alerts, now, horizon)[j] == alerts[j];
    }
  }

  lemma ResolvedIff(items: seq<Item>, alerts: seq<Alert>, i: nat)
    requires i < |items|
    ensures Unresolved(Resolved(items, alerts), i) <==> Unresolved(alerts, i) && IsLow(items[i])
  {
    if Unresolved(alerts, i) && IsLow(items[i]) {
      var j :| 0 <= j < |alerts| && alerts[j].item == i && !alerts[j].resolved;
      assert Resolved(items, alerts)[j] == alerts[j];
    }
  }

  /** After a check, an item has an unresolved alert exactly when it is live and low or out of stock. */
  lemma CheckedIff(items: seq<Item>, alerts: seq<Alert>, order: seq<nat>, now: int, horizon: int, i: nat)
    requires i < |items|
    ensures Unresolved(Checked(items, alerts, order, now, horizon), i) <==> IsLow(items[i])
  {
    StockAlertsCover(items, alerts, order, i);
    ExpiryAlertsCover(items, WithStockAlerts(items, alerts, order), now, horizon, i);
    ResolvedIff(items, WithExpiryAlerts(items, WithStockAlerts(items, alerts, order), now, horizon), i);
  }

  /** The same for a whole refresh: the statuses are synced first, then the alerts checked. */
  lemma RefreshIff(items: seq<Item>, alerts: seq<Alert>, order: seq<nat>, now: int, horizon: int, i: nat)
    requires i < |items|
    ensures var after := Synced(items);
            Unresolved(Checked(after, alerts, order, now, horizon), i)
            <==> !items[i].deleted && ComputeInventoryStatus(items[i]) in {LOW_STOCK, OUT_OF_STOCK}
  {
    CheckedIff(Synced(items), alerts, order, now, horizon, i);
  }

  // What kind of alert it is

  lemma KeptByCheck(items: seq<Item>, alerts: seq<Alert>, order: seq<nat>, now: int, horizon: int, j: nat)
    requires ForItems(items, WithStockAlerts(items, alerts, order)) && j < |WithStockAlerts(items, alerts, order)|
    ensures var a := WithStockAlerts(items, alerts, order)[j];
            && j < |Checked(items, alerts, order, now, horizon)|
            && (IsLow(items[a.item]) ==> Checked(items, alerts, order, now, horizon)[j] == a)
  {
  }

  lemma StockAlertsForItems(items: seq<Item>, alerts: seq<Alert>, order: seq<nat>)
    requires ForItems(items, alerts)
    ensures ForItems(items, WithStockAlerts(items, alerts, order))
  {
    StockAlertFor(items, alerts, |items|, 0);
  }

  /** An item that has run out has an unresolved alert saying so. */
  lemma OutIsReported(items: seq<Item>, alerts: seq<Alert>, order: seq<nat>, now: int, horizon: int, i: nat)
    requires ForItems(items, alerts) && Answers(items, alerts, order)
    requires i < |items| && IsLow(items[i]) && items[i].quantity == 0
    ensures UnresolvedOf(Checked(items, alerts, order, now, horizon), i, OUT)
  {
    var mid := WithStockAlerts(items, alerts, order);
    StockAlertsForItems(items, alerts, order);
    StockAlertFor(items, alerts, |items|, i);
    var j: nat;
    ReadIff(items, alerts, order, i);
    if Unresolved(alerts, i) {
      j := RowRead(alerts, order, i).value;
      assert Wanted(items, alerts[j]);
    } else {
      var k :| 0 <= k < |NewStockAlerts(items, alerts, |items|)|
               && NewStockAlerts(items, alerts, |items|)[k] == Alert(i, StockKind(items[i]), false);
      j := |alerts| + k;
    }
    assert mid[j] == Alert(i, OUT, false);
    KeptByCheck(items, alerts, order, now, horizon, j);
    assert Checked(items, alerts, order, now, horizon)[j] == mid[j];
  }

  /**
   An item that is low but not out has an unresolved LOW_STOCK alert exactly
   when it had one before or had no unresolved alert at all: one that is only
   expiring soon, or was out before, keeps its low stock from being reported.
   */
  lemma LowIsReportedIff(items: seq<Item>, alerts: seq<Alert>, order: seq<nat>, now: int, horizon: int, i: nat)
    requires ForItems(items, alerts) && i < |items| && IsLow(items[i]) && items[i].quantity != 0
    ensures UnresolvedOf(Checked(items, alerts, order, now, horizon), i, LOW)
            <==> UnresolvedOf(alerts, i, LOW) || !Unresolved(alerts, i)
  {
    var mid, after, n := WithStockAlerts(items, alerts, order), Checked(items, alerts, order, now, horizon), |alerts|;
    StockAlertsForItems(items, alerts, order);
    StockAlertFor(items, alerts, |items|, i);
    ExpiryAlertFor(items, mid, now, horizon, |items|, i);
    if UnresolvedOf(alerts, i, LOW) {
      var j :| 0 <= j < n && alerts[j].item == i && !alerts[j].resolved && alerts[j].kind == LOW;
      KeptByCheck(items, alerts, order, now, horizon, j);
      assert after[j] == alerts[j];
    } else if !Unresolved(alerts, i) {
      var k :| 0 <= k < |NewStockAlerts(items, alerts, |items|)|
               && NewStockAlerts(items, alerts, |items|)[k] == Alert(i, StockKind(items[i]), false);
      KeptByCheck(items, alerts, order, now, horizon, n + k);
      assert after[n + k] == Alert(i, LOW, false);
    }
  }
}
