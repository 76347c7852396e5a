/** Statuses and alerts in the columns of the rows: which status, which alerts are raised, rewritten and resolved. */
module AlertAnswers {
  import opened Wrappers
  import opened Alerts
  import opened AlertFacts

  /**
   A serialized unit is IN_USE when assigned, else in stock or out of it; a
   bulk row is out at nothing, low up to its minimum and in stock above it.
   */
  lemma StatusIs(item: Item)
    ensures var s := ComputeInventoryStatus(item);
            && (s == IN_USE <==> item.itemType == UNIQUE && item.assignedTo)
            && (s == LOW_STOCK <==> item.itemType == BULK && 0 < item.quantity <= item.minQuantity)
            && (s == OUT_OF_STOCK <==> item.quantity <= 0 && !(item.itemType == UNIQUE && item.assignedTo))
            && (s == IN_STOCK <==>
                  if item.itemType == UNIQUE then !item.assignedTo && 1 <= item.quantity
                  else 0 < item.quantity && item.minQuantity < item.quantity)
  {
  }

  /** A sync writes the status of live rows and nothing else. */
  lemma SyncedRow(items: seq<Item>, i: nat)
    requires i < |items|
    ensures |Synced(items)| == |items|
    ensures Synced(items)[i] == if items[i].deleted then items[i] else items[i].(status := ComputeInventoryStatus(items[i]))
  {
  }

  /** A live row at LOW_STOCK or OUT_OF_STOCK. */
  predicate Low(item: Item)
  {
    !item.deleted && item.status in {LOW_STOCK, OUT_OF_STOCK}
  }

  /** A live row whose date lies after now and within the horizon. */
  predicate Expires(item: Item, now: int, horizon: int)
  {
    !item.deleted && item.expirationDate != None && now < item.expirationDate.value && item.expirationDate.value <= horizon
  }

  predicate Open(alerts: seq<Alert>, i: nat)
  {
    exists j :: 0 <= j < |alerts| && alerts[j] == Alert(i, alerts[j].kind, false)
  }

  lemma OpenIs(alerts: seq<Alert>, i: nat)
    ensures Open(alerts, i) <==> Unresolved(alerts, i)
  {
    if Unresolved(alerts, i) {
      var j :| 0 <= j < |alerts| && alerts[j].item == i && !alerts[j].resolved;
      assert alerts[j] == Alert(i, alerts[j].kind, false);
    }
  }

  /** The first row of the answer for an item. */
  predicate ReadFirst(alerts: seq<Alert>, order: seq<nat>, j: nat)
    requires j < |alerts|
  {
    exists p :: 0 <= p < |order| && order[p] == j
                && forall q :: 0 <= q < p ==> order[q] < |alerts| ==> alerts[order[q]].item != alerts[j].item
  }

  lemma {:induction false} ReadFirstIs(alerts: seq<Alert>, order: seq<nat>, j: nat)
    requires j < |alerts| && forall p :: 0 <= p < |order| ==> order[p] < |alerts|
    ensures RowRead(alerts, order, alerts[j].item) == Some(j) ==> ReadFirst(alerts, order, j)
    ensures ReadFirst(alerts, order, j) ==> RowRead(alerts, order, alerts[j].item) == Some(j)
  {
    if order != [] {
      var n := |order| - 1;
      var item := alerts[j].item;
      ReadFirstIs(alerts, order[..n], j);
      assert forall p :: 0 <= p < n ==> order[..n][p] == order[p];
      if ReadFirst(alerts, order[..n], j) {
        var p :| 0 <= p < n && order[..n][p] == j
                 && forall q :: 0 <= q < p ==> order[..n][q] < |alerts| ==> alerts[order[..n][q]].item != item;
        assert order[p] == j;
      }
    }
  }

  /**
   What a check does to the alerts there were: one for a row that is in stock,
   in use or deleted is resolved; the one read first for a row that has run out
   becomes OUT_OF_STOCK; the others stay.
   */
  lemma OldAlert(items: seq<Item>, alerts: seq<Alert>, order: seq<nat>, now: int, horizon: int, j: nat)
    requires ForItems(items, alerts) && Answers(items, alerts, order) && j < |alerts|
    ensures var a, item, after := alerts[j], items[alerts[j].item], Checked(items, alerts, order, now, horizon);
            && |alerts| <= |after|
            && after[j] == Alert(
                 a.item,
                 if Low(item) && item.quantity == 0 && ReadFirst(alerts, order, j) then OUT else a.kind,
                 a.resolved || item.deleted || item.status in {IN_STOCK, IN_USE})
  {
    ReadFirstIs(alerts, order, j);
  }

  /** Each new alert is for a low row that had none open, saying whether anything is left, or for one that expires soon. */
  lemma NewAlert(items: seq<Item>, alerts: seq<Alert>, order: seq<nat>, now: int, horizon: int, j: nat)
    requires ForItems(items, alerts) && |alerts| <= j < |Checked(items, alerts, order, now, horizon)|
    ensures var a := Checked(items, alerts, order, now, horizon)[j];
            && a.item < |items|
            && (|| (&& Low(items[a.item]) && !Open(alerts, a.item) && !a.resolved
                    && a.kind == if items[a.item].quantity == 0 then OUT else LOW)
                || (&& Expires(items[a.item], now, horizon) && a.kind == EXPIRING_SOON
                    && (a.resolved <==> items[a.item].status in {IN_STOCK, IN_USE})))
  {
    var mid := WithStockAlerts(items, alerts, order);
    StockAlertFor(items, alerts, |items|, 0);
    ExpiryAlertFor(items, mid, now, horizon, |items|, 0);
    var a := Checked(items, alerts, order, now, horizon)[j];
    if j < |mid| {
      assert mid[j] == NewStockAlerts(items, alerts, |items|)[j - |alerts|];
    } else {
      assert a.item == NewExpiryAlerts(items, mid, now, horizon, |items|)[j - |mid|].item;
    }
    OpenIs(alerts, a.item);
  }

  /** Every low row without an open alert gets one, and every row that expires soon without an open expiry alert gets that. */
  lemma Raised(items: seq<Item>, alerts: seq<Alert>, order: seq<nat>, now: int, horizon: int, i: nat)
    requires ForItems(items, alerts) && i < |items|
    ensures var after := Checked(items, alerts, order, now, horizon);
            && (Low(items[i]) && !Open(alerts, i) ==>
                  exists j :: |alerts| <= j < |after| && after[j] == Alert(i, if items[i].quantity == 0 then OUT else LOW, false))
            && (Expires(items[i], now, horizon)
                && (forall j :: 0 <= j < |alerts| ==> alerts[j] != Alert(i, EXPIRING_SOON, false)) ==>
                  exists j :: |alerts| <= j < |after| && after[j].item == i && after[j].kind == EXPIRING_SOON)
  {
    var mid, after := WithStockAlerts(items, alerts, order), Checked(items, alerts, order, now, horizon);
    StockAlertFor(items, alerts, |items|, i);
    ExpiryAlertFor(items, mid, now, horizon, |items|, i);
    OpenIs(alerts, i);
    if Low(items[i]) && !Open(alerts, i) {
      var k :| 0 <= k < |NewStockAlerts(items, alerts, |items|)|
               && NewStockAlerts(items, alerts, |items|)[k] == Alert(i, StockKind(items[i]), false);
      assert after[|alerts| + k] == Alert(i, StockKind(items[i]), false);
    }
    if Expires(items[i], now, horizon) && forall j :: 0 <= j < |alerts| ==> alerts[j] != Alert(i, EXPIRING_SOON, false) {
      NoExpiryYet(items, alerts, order, i);
      var k :| 0 <= k < |NewExpiryAlerts(items, mid, now, horizon, |items|)|
               && NewExpiryAlerts(items, mid, now, horizon, |items|)[k] == Alert(i, EXPIRING_SOON, false);
      assert after[|mid| + k].item == i && after[|mid| + k].kind == EXPIRING_SOON;
    }
  }

  lemma NoExpiryYet(items: seq<Item>, alerts: seq<Alert>, order: seq<nat>, i: nat)
    requires i < |items| && forall j :: 0 <= j < |alerts| ==> alerts[j] != Alert(i, EXPIRING_SOON, false)
    ensures !UnresolvedOf(WithStockAlerts(items, alerts, order), i, EXPIRING_SOON)
  {
    var mid := WithStockAlerts(items, alerts, order);
    StockAlertFor(items, alerts, |items|, i);
    forall j | 0 <= j < |mid| && mid[j].item == i && !mid[j].resolved ensures mid[j].kind != EXPIRING_SOON {
      if j < |alerts| {
        assert alerts[j] != Alert(i, EXPIRING_SOON, false);
      } else {
        assert mid[j] == NewStockAlerts(items, alerts, |items|)[j - |alerts|];
      }
    }
  }
}
