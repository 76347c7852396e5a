/** Alerts that do not last: when checking again raises what the check before had raised already. */
module AlertRepeats {
  import opened Wrappers
  import opened Alerts
  import opened AlertFacts

  lemma {:induction false} NothingNewForStock(items: seq<Item>, alerts: seq<Alert>, n: nat)
    requires n <= |items| && forall i :: 0 <= i < |items| && IsLow(items[i]) ==> Unresolved(alerts, i)
    ensures NewStockAlerts(items, alerts, n) == []
  {
    if n > 0 {
      NothingNewForStock(items, alerts, n - 1);
    }
  }

  lemma LowKeepsExpiryAlert(items: seq<Item>, alerts: seq<Alert>, order: seq<nat>, now: int, horizon: int, i: nat)
    requires ForItems(items, WithStockAlerts(items, alerts, order)) && i < |items| && IsLow(items[i])
    requires Expiring(items[i], now, horizon)
    ensures UnresolvedOf(Checked(items, alerts, order, now, horizon), i, EXPIRING_SOON)
  {
    var mid := WithStockAlerts(items, alerts, order);
    var late, after := WithExpiryAlerts(items, mid, now, horizon), Checked(items, alerts, order, now, horizon);
    ExpiryAlertFor(items, mid, now, horizon, |items|, i);
    var j: nat;
    if UnresolvedOf(mid, i, EXPIRING_SOON) {
      var k :| 0 <= k < |mid| && mid[k].item == i && !mid[k].resolved && mid[k].kind == EXPIRING_SOON;
      j := k;
    } else {
      var k :| 0 <= k < |NewExpiryAlerts(items, mid, now, horizon, |items|)|
               && NewExpiryAlerts(items, mid, now, horizon, |items|)[k] == Alert(i, EXPIRING_SOON, false);
      j := |mid| + k;
    }
    assert late[j].item == i && !late[j].resolved && late[j].kind == EXPIRING_SOON;
    assert after[j] == late[j];
  }

  /** The row a check would read for the item is its only unresolved EXPIRING_SOON alert. */
  predicate ReadsOnlyExpiry(alerts: seq<Alert>, order: seq<nat>, i: nat)
  {
    var row := RowRead(alerts, order, i);
    && row.Some?
    && alerts[row.value].kind == EXPIRING_SOON
    && forall j :: 0 <= j < |alerts| && j != row.value ==>
         !(alerts[j].item == i && !alerts[j].resolved && alerts[j].kind == EXPIRING_SOON)
  }

  /** Marking alerts as OUT_OF_STOCK takes the item's last EXPIRING_SOON alert away exactly when it is the row read. */
  lemma ExpirySurvivesIff(items: seq<Item>, alerts: seq<Alert>, order: seq<nat>, i: nat)
    requires ForItems(items, alerts) && Answers(items, alerts, order) && i < |items| && IsLow(items[i])
    requires UnresolvedOf(alerts, i, EXPIRING_SOON)
    ensures UnresolvedOf(WithStockAlerts(items, alerts, order), i, EXPIRING_SOON)
            <==> !(items[i].quantity == 0 && ReadsOnlyExpiry(alerts, order, i))
  {
    var mid := WithStockAlerts(items, alerts, order);
    StockAlertFor(items, alerts, |items|, i);
    ReadIff(items, alerts, order, i);
    assert Unresolved(alerts, i);
    var row := RowRead(alerts, order, i).value;
    if !(items[i].quantity == 0 && ReadsOnlyExpiry(alerts, order, i)) {
      var j :| 0 <= j < |alerts| && alerts[j].item == i && !alerts[j].resolved && alerts[j].kind == EXPIRING_SOON
               && (items[i].quantity == 0 ==> j != row);
      assert mid[j] == alerts[j];
    }
  }

  /**
   What makes a check raise an expiry alert for an item: it expires soon by
   then, and is neither low nor out of stock, has no such alert, or has run
   out and its only one is about to be rewritten.
   */
  predicate RaisedAgain(items: seq<Item>, alerts: seq<Alert>, order: seq<nat>, now: int, horizon: int, i: nat)
    requires i < |items|
  {
    && Expiring(items[i], now, horizon)
    && (|| !IsLow(items[i])
        || !UnresolvedOf(alerts, i, EXPIRING_SOON)
        || (items[i].quantity == 0 && ReadsOnlyExpiry(alerts, order, i)))
  }

  lemma SecondCheckRaises(items: seq<Item>, once: seq<Alert>, again: seq<nat>, now: int, horizon: int, i: nat)
    requires ForItems(items, once) && i < |items| && Expiring(items[i], now, horizon)
    requires Answers(items, once, again) && (Unresolved(once, i) ==> IsLow(items[i]))
    ensures UnresolvedOf(WithStockAlerts(items, once, again), i, EXPIRING_SOON)
            <==> !RaisedAgain(items, once, again, now, horizon, i)
  {
    StockAlertsCover(items, once, again, i);
    if IsLow(items[i]) {
      if UnresolvedOf(once, i, EXPIRING_SOON) {
        ExpirySurvivesIff(items, once, again, i);
      } else {
        StockAlertFor(items, once, |items|, i);
      }
    }
  }

  lemma CheckedForItems(items: seq<Item>, alerts: seq<Alert>, order: seq<nat>, now: int, horizon: int)
    requires ForItems(items, alerts)
    ensures ForItems(items, Checked(items, alerts, order, now, horizon))
  {
    var mid := WithStockAlerts(items, alerts, order);
    StockAlertsForItems(items, alerts, order);
    ExpiryAlertFor(items, mid, now, horizon, |items|, 0);
  }

  /**
   Checking again some time later raises more alerts exactly when some live
   item expires soon by then and is in stock or in use, the first check having
   resolved what it raised for it; or had no expiry alert yet; or has run out
   and its only expiry alert is the row the query returns first for it, which
   is then rewritten. A low item that expired soon at the first check has one.
   */
  lemma CheckRepeatsIff(
    items: seq<Item>, alerts: seq<Alert>, order: seq<nat>, now: int, horizon: int,
    again: seq<nat>, later: int, laterHorizon: int)
    requires ForItems(items, alerts) && Answers(items, Checked(items, alerts, order, now, horizon), again)
    ensures var once := Checked(items, alerts, order, now, horizon);
            |Checked(items, once, again, later, laterHorizon)| > |once|
            <==> exists i :: 0 <= i < |items| && RaisedAgain(items, once, again, later, laterHorizon, i)
    ensures forall i :: 0 <= i < |items| && IsLow(items[i]) && Expiring(items[i], now, horizon) ==>
              UnresolvedOf(Checked(items, alerts, order, now, horizon), i, EXPIRING_SOON)
  {
    var once := Checked(items, alerts, order, now, horizon);
    var mid := WithStockAlerts(items, once, again);
    StockAlertsForItems(items, alerts, order);
    CheckedForItems(items, alerts, order, now, horizon);
    forall i | 0 <= i < |items| ensures Unresolved(once, i) <==> IsLow(items[i]) {
      CheckedIff(items, alerts, order, now, horizon, i);
    }
    forall i | 0 <= i < |items| && IsLow(items[i]) && Expiring(items[i], now, horizon)
      ensures UnresolvedOf(once, i, EXPIRING_SOON)
    {
      LowKeepsExpiryAlert(items, alerts, order, now, horizon, i);
    }
    NothingNewForStock(items, once, |items|);
    var raised := NewExpiryAlerts(items, mid, later, laterHorizon, |items|);
    assert |Checked(items, once, again, later, laterHorizon)| == |once| + |raised|;
    forall i: nat | i < |items| && Expiring(items[i], later, laterHorizon)
      ensures UnresolvedOf(mid, i, EXPIRING_SOON) <==> !RaisedAgain(items, once, again, later, laterHorizon, i)
    {
      SecondCheckRaises(items, once, again, later, laterHorizon, i);
    }
    ExpiryAlertFor(items, mid, later, laterHorizon, |items|, 0);
    if raised != [] {
      assert RaisedAgain(items, once, again, later, laterHorizon, raised[0].item);
    } else {
      forall i: nat | i < |items| ensures !RaisedAgain(items, once, again, later, laterHorizon, i) {
        ExpiryAlertFor(items, mid, later, laterHorizon, |items|, i);
      }
    }
  }
}
