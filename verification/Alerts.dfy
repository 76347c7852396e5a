/** Stored statuses and stock alerts, brought in line with the quantities. */
module Alerts {
  import opened Wrappers

  datatype ItemType = UNIQUE | BULK

  datatype Status = IN_STOCK | LOW_STOCK | OUT_OF_STOCK | IN_USE

  datatype Item = Item(
    itemType: ItemType, quantity: int, minQuantity: int, assignedTo: bool,
    deleted: bool, expirationDate: Option<int>, status: Status)

  datatype AlertType = LOW | OUT | EXPIRING_SOON

  datatype Alert = Alert(item: nat, kind: AlertType, resolved: bool)

  function ComputeInventoryStatus(item: Item): (s: Status)
    ensures item.itemType.UNIQUE? ==> !s.LOW_STOCK?
    ensures item.itemType.BULK? ==> !s.IN_USE?
    ensures !s.IN_USE? && item.minQuantity >= 0 ==> (s.OUT_OF_STOCK? <==> item.quantity <= 0)
  {
    if item.itemType.UNIQUE? then
      if item.assignedTo then IN_USE
      else if item.quantity >= 1 then IN_STOCK else OUT_OF_STOCK
    else if item.quantity <= 0 then OUT_OF_STOCK
    else if item.quantity <= item.minQuantity then LOW_STOCK
    else IN_STOCK
  }

  predicate Stale(item: Item)
  {
    !item.deleted && ComputeInventoryStatus(item) != item.status
  }

  /** Every live item with the status its quantity calls for; deleted rows are left alone. */
  function Synced(items: seq<Item>): seq<Item>
  {
    seq(|items|, i requires 0 <= i < |items| =>
      if items[i].deleted then items[i] else items[i].(status := ComputeInventoryStatus(items[i])))
  }

  function StaleCount(items: seq<Item>): nat
  {
    if items == [] then 0
    else StaleCount(items[..|items| - 1]) + (if Stale(items[|items| - 1]) then 1 else 0)
  }

  // Alerts

  predicate IsLow(item: Item)
  {
    !item.deleted && (item.status.LOW_STOCK? || item.status.OUT_OF_STOCK?)
  }

  predicate Expiring(item: Item, now: int, horizon: int)
  {
    !item.deleted && item.expirationDate.Some? && now < item.expirationDate.value <= horizon
  }

  predicate Unresolved(alerts: seq<Alert>, item: nat)
  {
    exists j :: 0 <= j < |alerts| && alerts[j].item == item && !alerts[j].resolved
  }

  predicate UnresolvedOf(alerts: seq<Alert>, item: nat, kind: AlertType)
  {
    exists j :: 0 <= j < |alerts| && alerts[j].item == item && !alerts[j].resolved && alerts[j].kind == kind
  }

  /**
   What the query for the unresolved alerts of the low items may return: their
   positions, each once. It asks for no order, so any order will do.
   */
  predicate Answers(items: seq<Item>, alerts: seq<Alert>, order: seq<nat>)
  {
    && (forall k :: 0 <= k < |order| ==> order[k] < |alerts| && Wanted(items, alerts[order[k]]))
    && (forall j :: 0 <= j < |alerts| && Wanted(items, alerts[j]) ==> j in order)
    && (forall j, k :: 0 <= j < k < |order| ==> order[j] != order[k])
  }

  predicate Wanted(items: seq<Item>, a: Alert)
  {
    !a.resolved && a.item < |items| && IsLow(items[a.item])
  }

  /** The first row returned for an item: the one the loop keeps. */
  function RowRead(alerts: seq<Alert>, order: seq<nat>, item: nat): (r: Option<nat>)
    ensures r.Some? ==> r.value in order && r.value < |alerts| && alerts[r.value].item == item
    ensures r.None? ==> forall k :: 0 <= k < |order| && order[k] < |alerts| ==> alerts[order[k]].item != item
  {
    if order == [] then None
    else
      var n := |order| - 1;
      var earlier := RowRead(alerts, order[..n], item);
      if earlier.Some? then earlier
      else if order[n] < |alerts| && alerts[order[n]].item == item then Some(order[n])
      else None
  }

  function StockKind(item: Item): AlertType
  {
    if item.quantity == 0 then OUT else LOW
  }

  /** Alerts for the low items among the first n that had no unresolved alert. */
  function NewStockAlerts(items: seq<Item>, alerts: seq<Alert>, n: nat): seq<Alert>
    requires n <= |items|
  {
    if n == 0 then []
    else
      NewStockAlerts(items, alerts, n - 1)
        + (if IsLow(items[n - 1]) && !Unresolved(alerts, n - 1) then [Alert(n - 1, StockKind(items[n - 1]), false)] else [])
  }

  /** The alert already there becomes OUT_OF_STOCK once nothing is left, for the items before n. */
  function Escalated(items: seq<Item>, alerts: seq<Alert>, order: seq<nat>, n: nat): seq<Alert>
    requires n <= |items|
  {
    seq(|alerts|, j requires 0 <= j < |alerts| =>
      if Escalates(items, alerts, order, n, j) then alerts[j].(kind := OUT) else alerts[j])
  }

  predicate Escalates(items: seq<Item>, alerts: seq<Alert>, order: seq<nat>, n: nat, j: nat)
    requires n <= |items| && j < |alerts|
  {
    var item := alerts[j].item;
    item < n && IsLow(items[item]) && items[item].quantity == 0 && RowRead(alerts, order, item) == Some(j)
  }

  function NewExpiryAlerts(items: seq<Item>, alerts: seq<Alert>, now: int, horizon: int, n: nat): seq<Alert>
    requires n <= |items|
  {
    if n == 0 then []
    else
      NewExpiryAlerts(items, alerts, now, horizon, n - 1)
        + (if Expiring(items[n - 1], now, horizon) && !UnresolvedOf(alerts, n - 1, EXPIRING_SOON)
           then [Alert(n - 1, EXPIRING_SOON, false)] else [])
  }

  /** The item is in stock, in use or deleted. */
  predicate Settled(items: seq<Item>, item: nat)
  {
    item < |items| && (items[item].status.IN_STOCK? || items[item].status.IN_USE? || items[item].deleted)
  }

  function Resolved(items: seq<Item>, alerts: seq<Alert>): seq<Alert>
  {
    seq(|alerts|, j requires 0 <= j < |alerts| =>
      if !alerts[j].resolved && Settled(items, alerts[j].item) then alerts[j].(resolved := true) else alerts[j])
  }

  /** The alerts once the items before n have been looked at. */
  function StockAlertsUpTo(items: seq<Item>, alerts: seq<Alert>, order: seq<nat>, n: nat): seq<Alert>
    requires n <= |items|
  {
    Escalated(items, alerts, order, n) + NewStockAlerts(items, alerts, n)
  }

  function WithStockAlerts(items: seq<Item>, alerts: seq<Alert>, order: seq<nat>): seq<Alert>
  {
    StockAlertsUpTo(items, alerts, order, |items|)
  }

  function WithExpiryAlerts(items: seq<Item>, alerts: seq<Alert>, now: int, horizon: int): seq<Alert>
  {
    alerts + NewExpiryAlerts(items, alerts, now, horizon, |items|)
  }

  /** The whole check, `order` being the rows as its first query returned them. */
  function Checked(items: seq<Item>, alerts: seq<Alert>, order: seq<nat>, now: int, horizon: int): seq<Alert>
  {
    Resolved(items, WithExpiryAlerts(items, WithStockAlerts(items, alerts, order), now, horizon))
  }

  class AlertsService {
    var items: seq<Item>
    var alerts: seq<Alert>
    var isCheckRunning: bool

    constructor (items: seq<Item>, alerts: seq<Alert>)
      ensures this.items == items && this.alerts == alerts && !isCheckRunning
    {
      this.items, this.alerts, isCheckRunning := items, alerts, false;
    }

    /** Groups the stale items by the status they should have, then updates each group at once. */
    method SyncStatuses() returns (updated: nat)
      modifies this
      ensures items == Synced(old(items)) && alerts == old(alerts) && isCheckRunning == old(isCheckRunning)
      ensures updated == StaleCount(old(items))
    {
      var idsByStatus, statuses := GroupByStatus();
      updated := 0;
      for g := 0 to |statuses|
        invariant alerts == old(alerts) && isCheckRunning == old(isCheckRunning)
        invariant items == SyncedTo(old(items), statuses[..g])
        invariant updated == Listed(idsByStatus, statuses[..g])
      {
        var status := statuses[g];
        assert statuses[..g + 1][..g] == statuses[..g];
        GroupIsWhole(old(items), idsByStatus, statuses, g);
        items := UpdateMany(items, idsByStatus[status], status);
        updated := updated + |idsByStatus[status]|;
      }
      assert statuses[..|statuses|] == statuses;
      EveryGroupSynced(old(items), idsByStatus, statuses);
    }

    /** The Map the first loop fills, and its keys in the order they were first set. */
    method GroupByStatus() returns (ids: map<Status, seq<nat>>, statuses: seq<Status>)
      ensures Groups(items, |items|, ids, statuses) && Listed(ids, statuses) == StaleCount(items)
    {
      ids, statuses := map[], [];
      for i := 0 to |items|
        invariant Groups(items, i, ids, statuses)
        invariant Listed(ids, statuses) == StaleCount(items[..i])
      {
        GroupsGrow(items, i, ids, statuses);
        ListedKeepsUp(items, i, ids, statuses);
        if !items[i].deleted && ComputeInventoryStatus(items[i]) != items[i].status {
          var status := ComputeInventoryStatus(items[i]);
          var group := if status in ids then ids[status] else [];
          statuses := if status in ids then statuses else statuses + [status];
          ids := ids[status := group + [i]];
        }
      }
      assert items[..|items|] == items;
    }

    /**
     `horizon` is seven days from now, `order` what the query for the existing
     alerts returns. A check that finds another one running does nothing.
     */
    method CheckLowStock(order: seq<nat>, now: int, horizon: int)
      requires Answers(items, alerts, order)
      modifies this
      ensures items == old(items) && isCheckRunning == old(isCheckRunning)
      ensures alerts == if old(isCheckRunning) then old(alerts) else Checked(items, old(alerts), order, now, horizon)
    {
      if isCheckRunning {
        return;
      }
      isCheckRunning := true;
      RaiseStockAlerts(order);
      RaiseExpiryAlerts(now, horizon);
      alerts := Resolved(items, alerts);
      isCheckRunning := false;
    }

    /** Keeps the first row returned for each item. */
    method FirstAlerts(order: seq<nat>) returns (firsts: map<nat, nat>)
      requires forall k :: 0 <= k < |order| ==> order[k] < |alerts|
      ensures AreFirst(alerts, order, firsts)
    {
      firsts := map[];
      for k := 0 to |order|
        invariant AreFirst(alerts, order[..k], firsts)
      {
        assert order[..k + 1][..k] == order[..k];
        var a := alerts[order[k]];
        if a.item !in firsts {
          firsts := firsts[a.item := order[k]];
        }
      }
      assert order[..|order|] == order;
    }

    /** Raises an alert for each low item without one, and marks the ones that have run out. */
    method RaiseStockAlerts(order: seq<nat>)
      requires Answers(items, alerts, order)
      modifies this`alerts
      ensures alerts == WithStockAlerts(items, old(alerts), order)
    {
      var firsts := FirstAlerts(order);
      ghost var before := alerts;
      assert StockAlertsUpTo(items, before, order, 0) == before;
      for i := 0 to |items|
        invariant alerts == StockAlertsUpTo(items, before, order, i)
      {
        StockAlertsStep(items, before, order, i, firsts);
        if IsLow(items[i]) {
          if i !in firsts {
            alerts := alerts + [Alert(i, if items[i].quantity == 0 then OUT else LOW, false)];
          } else if alerts[firsts[i]].kind != OUT && items[i].quantity == 0 {
            alerts := alerts[firsts[i] := alerts[firsts[i]].(kind := OUT)];
          }
        }
      }
    }

    method RaiseExpiryAlerts(now: int, horizon: int)
      modifies this`alerts
      ensures alerts == WithExpiryAlerts(items, old(alerts), now, horizon)
    {
      var withAlert := set j | 0 <= j < |alerts| && !alerts[j].resolved && alerts[j].kind == EXPIRING_SOON :: alerts[j].item;
      ghost var before := alerts;
      for i := 0 to |items|
        invariant alerts == before + NewExpiryAlerts(items, before, now, horizon, i)
      {
        assert i in withAlert <==> UnresolvedOf(before, i, EXPIRING_SOON);
        if Expiring(items[i], now, horizon) && i !in withAlert {
          alerts := alerts + [Alert(i, EXPIRING_SOON, false)];
        }
      }
    }
  }

  ghost predicate AreFirst(alerts: seq<Alert>, order: seq<nat>, firsts: map<nat, nat>)
  {
    forall item: nat :: RowRead(alerts, order, item) == if item in firsts then Some(firsts[item]) else None
  }

  /** A row is read for a low item exactly when it has an unresolved alert. */
  lemma ReadIff(items: seq<Item>, alerts: seq<Alert>, order: seq<nat>, i: nat)
    requires Answers(items, alerts, order) && i < |items|
    ensures RowRead(alerts, order, i).Some? <==> IsLow(items[i]) && Unresolved(alerts, i)
  {
    var r := RowRead(alerts, order, i);
    if r.Some? {
      assert Wanted(items, alerts[r.value]);
    } else if IsLow(items[i]) && Unresolved(alerts, i) {
      var j :| 0 <= j < |alerts| && alerts[j].item == i && !alerts[j].resolved;
      assert Wanted(items, alerts[j]);
      assert false;
    }
  }

  lemma EscalatedStep(items: seq<Item>, alerts: seq<Alert>, order: seq<nat>, i: nat)
    requires i < |items| && Answers(items, alerts, order)
    ensures var before, row := Escalated(items, alerts, order, i), RowRead(alerts, order, i);
            Escalated(items, alerts, order, i + 1)
            == if row.Some? && items[i].quantity == 0 then before[row.value := before[row.value].(kind := OUT)] else before
  {
    ReadIff(items, alerts, order, i);
    forall j: nat | j < |alerts|
      ensures Escalates(items, alerts, order, i + 1, j)
              <==> Escalates(items, alerts, order, i, j)
                   || (items[i].quantity == 0 && RowRead(alerts, order, i) == Some(j))
    {
    }
  }

  lemma StockAlertsStep(items: seq<Item>, alerts: seq<Alert>, order: seq<nat>, i: nat, firsts: map<nat, nat>)
    requires i < |items| && Answers(items, alerts, order) && AreFirst(alerts, order, firsts)
    ensures i in firsts ==> firsts[i] < |alerts|
    ensures var before, after := StockAlertsUpTo(items, alerts, order, i), StockAlertsUpTo(items, alerts, order, i + 1);
            after
            == if !IsLow(items[i]) then before
               else if i !in firsts then before + [Alert(i, StockKind(items[i]), false)]
               else if before[firsts[i]].kind != OUT && items[i].quantity == 0
               then before[firsts[i] := before[firsts[i]].(kind := OUT)]
               else before
  {
    assert RowRead(alerts, order, i) == if i in firsts then Some(firsts[i]) else None;
    ReadIff(items, alerts, order, i);
    EscalatedStep(items, alerts, order, i);
    var before := StockAlertsUpTo(items, alerts, order, i);
    if i in firsts {
      assert before[firsts[i]] == Escalated(items, alerts, order, i)[firsts[i]];
    }
  }

  /** One statement sets the status of every row listed, and of no other. */
  function UpdateMany(items: seq<Item>, ids: seq<nat>, status: Status): seq<Item>
  {
    seq(|items|, i requires 0 <= i < |items| => if i in ids then items[i].(status := status) else items[i])
  }

  /** The items once the groups of these statuses have been updated. */
  function SyncedTo(items: seq<Item>, statuses: seq<Status>): seq<Item>
  {
    seq(|items|, i requires 0 <= i < |items| =>
      if Stale(items[i]) && ComputeInventoryStatus(items[i]) in statuses
      then items[i].(status := ComputeInventoryStatus(items[i])) else items[i])
  }

  /** Each stale item among the first n is listed under its computed status; nothing else is. */
  ghost predicate Groups(items: seq<Item>, n: nat, ids: map<Status, seq<nat>>, statuses: seq<Status>)
    requires n <= |items|
  {
    && (forall s :: s in ids <==> s in statuses)
    && (forall j, k :: 0 <= j < k < |statuses| ==> statuses[j] != statuses[k])
    && (forall s :: s in ids ==> AllStale(items, n, s, ids[s]))
    && (forall i :: 0 <= i < n && Stale(items[i]) ==>
          ComputeInventoryStatus(items[i]) in ids && i in ids[ComputeInventoryStatus(items[i])])
  }

  /** The group names stale items among the first n, all of this computed status. */
  predicate AllStale(items: seq<Item>, n: nat, s: Status, group: seq<nat>)
    requires n <= |items|
  {
    forall k :: 0 <= k < |group| ==> group[k] < n && Stale(items[group[k]]) && ComputeInventoryStatus(items[group[k]]) == s
  }

  /** How many ids the groups hold altogether. */
  function Listed(ids: map<Status, seq<nat>>, statuses: seq<Status>): nat
  {
    if statuses == [] then 0
    else
      var s := statuses[|statuses| - 1];
      Listed(ids, statuses[..|statuses| - 1]) + (if s in ids then |ids[s]| else 0)
  }

  lemma {:induction false} ListedElsewhere(ids: map<Status, seq<nat>>, statuses: seq<Status>, s: Status, group: seq<nat>)
    requires s !in statuses
    ensures Listed(ids[s := group], statuses) == Listed(ids, statuses)
  {
    if statuses != [] {
      ListedElsewhere(ids, statuses[..|statuses| - 1], s, group);
    }
  }

  lemma {:induction false} ListedGrows(ids: map<Status, seq<nat>>, statuses: seq<Status>, s: Status, group: seq<nat>)
    requires forall j, k :: 0 <= j < k < |statuses| ==> statuses[j] != statuses[k]
    requires s in statuses <==> s in ids
    requires |group| == (if s in ids then |ids[s]| else 0) + 1
    ensures Listed(ids[s := group], if s in statuses then statuses else statuses + [s]) == Listed(ids, statuses) + 1
  {
    if s !in statuses {
      ListedElsewhere(ids, statuses, s, group);
      assert (statuses + [s])[..|statuses|] == statuses;
    } else {
      var n := |statuses| - 1;
      if statuses[n] == s {
        ListedElsewhere(ids, statuses[..n], s, group);
      } else {
        ListedGrows(ids, statuses[..n], s, group);
      }
    }
  }

  /** The groups with one more item. */
  function Grown(items: seq<Item>, i: nat, ids: map<Status, seq<nat>>): map<Status, seq<nat>>
    requires i < |items|
  {
    var s := ComputeInventoryStatus(items[i]);
    if Stale(items[i]) then ids[s := (if s in ids then ids[s] else []) + [i]] else ids
  }

  function GrownKeys(items: seq<Item>, i: nat, ids: map<Status, seq<nat>>, statuses: seq<Status>): seq<Status>
    requires i < |items|
  {
    if Stale(items[i]) && ComputeInventoryStatus(items[i]) !in ids then statuses + [ComputeInventoryStatus(items[i])]
    else statuses
  }

  lemma KeptInGroup(items: seq<Item>, i: nat, ids: map<Status, seq<nat>>, k: nat)
    requires k <= i < |items| && Stale(items[k])
    requires k < i ==> ComputeInventoryStatus(items[k]) in ids && k in ids[ComputeInventoryStatus(items[k])]
    ensures var s, grown := ComputeInventoryStatus(items[k]), Grown(items, i, ids);
            s in grown && k in grown[s]
  {
  }

  lemma GroupsGrow(items: seq<Item>, i: nat, ids: map<Status, seq<nat>>, statuses: seq<Status>)
    requires i < |items| && Groups(items, i, ids, statuses)
    ensures Groups(items, i + 1, Grown(items, i, ids), GrownKeys(items, i, ids, statuses))
  {
    var ids' := Grown(items, i, ids);
    forall s | s in ids' ensures AllStale(items, i + 1, s, ids'[s]) {
      assert s in ids ==> AllStale(items, i, s, ids[s]);
    }
    forall k | 0 <= k < i + 1 && Stale(items[k])
      ensures ComputeInventoryStatus(items[k]) in ids' && k in ids'[ComputeInventoryStatus(items[k])]
    {
      KeptInGroup(items, i, ids, k);
    }
  }

  lemma ListedKeepsUp(items: seq<Item>, i: nat, ids: map<Status, seq<nat>>, statuses: seq<Status>)
    requires i < |items| && Groups(items, i, ids, statuses) && Listed(ids, statuses) == StaleCount(items[..i])
    ensures Listed(Grown(items, i, ids), GrownKeys(items, i, ids, statuses)) == StaleCount(items[..i + 1])
  {
    assert items[..i + 1][..i] == items[..i];
    if Stale(items[i]) {
      var s := ComputeInventoryStatus(items[i]);
      ListedGrows(ids, statuses, s, (if s in ids then ids[s] else []) + [i]);
    }
  }

  lemma EveryGroupSynced(items: seq<Item>, ids: map<Status, seq<nat>>, statuses: seq<Status>)
    requires Groups(items, |items|, ids, statuses)
    ensures SyncedTo(items, statuses) == Synced(items)
  {
  }

  /** Updating one more group syncs exactly the items that call for its status. */
  lemma GroupIsWhole(items: seq<Item>, ids: map<Status, seq<nat>>, statuses: seq<Status>, g: nat)
    requires Groups(items, |items|, ids, statuses) && g < |statuses|
    ensures statuses[g] in ids
    ensures UpdateMany(SyncedTo(items, statuses[..g]), ids[statuses[g]], statuses[g]) == SyncedTo(items, statuses[..g + 1])
  {
    assert statuses[..g + 1] == statuses[..g] + [statuses[g]];
  }
}
