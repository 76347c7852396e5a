/** Single rows on which the exceptions to alerting show, check after check. */
module AlertWitnesses {
  import opened Wrappers
  import opened Alerts

  /** A bulk row with a minimum of five that expires on day 3, with its status in line. */
  function Expires(quantity: nat): Item
  {
    var row := Item(BULK, quantity, 5, false, false, Some(3), IN_STOCK);
    row.(status := ComputeInventoryStatus(row))
  }

  /** The same row without an expiration date. */
  function Keeps(quantity: nat): Item
  {
    Expires(quantity).(expirationDate := None)
  }

  function OneRow(row: Item, alerts: seq<Alert>, order: seq<nat>): seq<Alert>
  {
    Checked([row], alerts, order, 0, 7)
  }

  /** One check of a single row: what was there, changed or resolved, then at most one alert of each sort. */
  lemma OneRowChecked(row: Item, alerts: seq<Alert>, order: seq<nat>)
    requires forall j :: 0 <= j < |alerts| ==> alerts[j].item == 0
    ensures var escalated := Escalated([row], alerts, order, 1);
            var stock := if IsLow(row) && !Unresolved(alerts, 0) then [Alert(0, StockKind(row), false)] else [];
            var expiry := if Expiring(row, 0, 7) && !UnresolvedOf(escalated + stock, 0, EXPIRING_SOON)
                          then [Alert(0, EXPIRING_SOON, false)] else [];
            OneRow(row, alerts, order) == Resolved([row], escalated + stock + expiry)
  {
    var mid := WithStockAlerts([row], alerts, order);
    assert NewStockAlerts([row], alerts, 0) == [] && NewExpiryAlerts([row], mid, 0, 7, 0) == [];
    assert NewStockAlerts([row], alerts, 1)
           == (if IsLow(row) && !Unresolved(alerts, 0) then [Alert(0, StockKind(row), false)] else []);
  }

  /** An item in stock that expires soon is alerted about again by every check, its alert never lasting. */
  lemma RaisedByEveryCheck()
    ensures var once := OneRow(Expires(20), [], []);
            once == [Alert(0, EXPIRING_SOON, true)]
            && OneRow(Expires(20), once, []) == [Alert(0, EXPIRING_SOON, true), Alert(0, EXPIRING_SOON, true)]
  {
    OneRowChecked(Expires(20), [], []);
    OneRowChecked(Expires(20), [Alert(0, EXPIRING_SOON, true)], []);
  }

  /** A low row expiring soon gets both alerts. */
  lemma LowAndExpiring()
    ensures OneRow(Expires(3), [], []) == LowAndExpiry()
  {
    OneRowChecked(Expires(3), [], []);
    assert [Alert(0, LOW, false)][0].kind == LOW;
  }

  function LowAndExpiry(): seq<Alert>
  {
    [Alert(0, LOW, false), Alert(0, EXPIRING_SOON, false)]
  }

  function OutAndExpiry(): seq<Alert>
  {
    [Alert(0, OUT, false), Alert(0, EXPIRING_SOON, false)]
  }

  lemma RunsOut()
    ensures Answers([Expires(0)], LowAndExpiry(), [0, 1])
    ensures OneRow(Expires(0), LowAndExpiry(), [0, 1]) == OutAndExpiry()
  {
    var low, out := LowAndExpiry(), OutAndExpiry();
    assert [0, 1][..1] == [0];
    assert RowRead(low, [0], 0) == Some(0);
    OneRowChecked(Expires(0), low, [0, 1]);
    assert Escalated([Expires(0)], low, [0, 1], 1) == out;
    assert Unresolved(low, 0) by { assert low[0].item == 0; }
    assert UnresolvedOf(out, 0, EXPIRING_SOON) by { assert out[1].kind == EXPIRING_SOON; }
    assert out + [] == out;
  }

  lemma ReadTheOtherWay()
    ensures Answers([Expires(0)], OutAndExpiry(), [1, 0])
    ensures OneRow(Expires(0), OutAndExpiry(), [1, 0])
            == [Alert(0, OUT, false), Alert(0, OUT, false), Alert(0, EXPIRING_SOON, false)]
  {
    var out, outs := OutAndExpiry(), [Alert(0, OUT, false), Alert(0, OUT, false)];
    assert [1, 0][..1] == [1];
    assert RowRead(out, [1], 0) == Some(1);
    OneRowChecked(Expires(0), out, [1, 0]);
    assert Escalated([Expires(0)], out, [1, 0], 1) == outs;
    assert Unresolved(out, 0) by { assert out[0].item == 0; }
    assert outs + [] == outs;
    assert !UnresolvedOf(outs, 0, EXPIRING_SOON);
    var three := outs + [Alert(0, EXPIRING_SOON, false)];
    assert Resolved([Expires(0)], three) == three;
  }

  /**
   Low and expiring, then run out: if the query then returns the alerts in
   another order, the expiry alert is rewritten and a third alert raised.
   */
  lemma RaisedByAnotherOrder()
    ensures var out := OneRow(Expires(0), OneRow(Expires(3), [], []), [0, 1]);
            out == OutAndExpiry() && |OneRow(Expires(0), out, [1, 0])| == 3
  {
    LowAndExpiring();
    RunsOut();
    ReadTheOtherWay();
  }

  /** An item that was out and is low again goes unreported as low. */
  lemma OutHidesLow()
    ensures var out := OneRow(Keeps(0), [], []);
            out == [Alert(0, OUT, false)] && OneRow(Keeps(3), out, [0]) == out
  {
    var out := [Alert(0, OUT, false)];
    OneRowChecked(Keeps(0), [], []);
    OneRowChecked(Keeps(3), out, [0]);
    assert Unresolved(out, 0) by { assert out[0].item == 0; }
  }

  /** So does one whose low-stock alert was resolved by hand while it also expires soon. */
  lemma ExpiryHidesLow()
    ensures var byHand := LowAndExpiry()[0 := Alert(0, LOW, true)];
            && OneRow(Expires(3), [], []) == LowAndExpiry() && Answers([Expires(3)], byHand, [1])
            && OneRow(Expires(3), byHand, [1]) == byHand == [Alert(0, LOW, true), Alert(0, EXPIRING_SOON, false)]
  {
    LowAndExpiring();
    var byHand := [Alert(0, LOW, true), Alert(0, EXPIRING_SOON, false)];
    assert LowAndExpiry()[0 := Alert(0, LOW, true)] == byHand;
    OneRowChecked(Expires(3), byHand, [1]);
    assert Escalated([Expires(3)], byHand, [1], 1) == byHand;
    assert Unresolved(byHand, 0) && UnresolvedOf(byHand, 0, EXPIRING_SOON) by {
      assert byHand[1].kind == EXPIRING_SOON && byHand[1].item == 0 && !byHand[1].resolved;
    }
    assert byHand + [] == byHand;
    assert IsLow(Expires(3)) && Resolved([Expires(3)], byHand) == byHand;
  }
}
