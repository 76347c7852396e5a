/**
 Stock movements inside one transaction: the conditional decrement everything
 rests on, and the loops that apply it, or plain increments, line by line.
 */
module Stock {
  import opened Seqs
  import opened Wrappers
  import opened Tables

  /** The committed tables. */
  class Database {
    var tables: Db

    constructor (tables: Db)
      ensures this.tables == tables
    {
      this.tables := tables;
    }
  }

  /** A transaction's own view: dropped when the callback throws, written back when it returns. */
  class Tx {
    var tables: Db

    constructor (tables: Db)
      ensures this.tables == tables
    {
      this.tables := tables;
    }
  }

  /** A call does exactly what its specification says; one that throws leaves the tables alone. */
  predicate Settles(before: Db, spec: Outcome, after: Db, r: Result<(), Error>)
  {
    match spec
    case Ok(tables) => r.Ok? && after == tables
    case Err(e) => r == Err(e) && after == before
  }

  /** UPDATE ... SET quantity = quantity - qty WHERE id, not deleted and quantity >= qty. */
  function TakeOne(items: seq<Item>, item: nat, qty: Units): Result<seq<Item>, Error>
  {
    if item < |items| && !items[item].deleted then
      if items[item].quantity >= qty then
        Ok(items[item := items[item].(quantity := items[item].quantity - qty)])
      else
        Err(INSUFFICIENT_STOCK)
    else
      Err(ITEM_NO_LONGER_AVAILABLE)
  }

  /** UPDATE ... SET quantity = quantity + qty WHERE id. */
  function GiveOne(items: seq<Item>, item: nat, qty: Units): Result<seq<Item>, Error>
  {
    if item < |items| then
      Ok(items[item := items[item].(quantity := items[item].quantity + qty)])
    else
      Err(NOT_FOUND)
  }

  function TakeAll(items: seq<Item>, lines: seq<Line>): Result<seq<Item>, Error>
  {
    if lines == [] then Ok(items)
    else
      var last := lines[|lines| - 1];
      var before :- TakeAll(items, lines[..|lines| - 1]);
      TakeOne(before, last.item, last.qty)
  }

  function GiveAll(items: seq<Item>, lines: seq<Line>): Result<seq<Item>, Error>
  {
    if lines == [] then Ok(items)
    else
      var last := lines[|lines| - 1];
      var before :- GiveAll(items, lines[..|lines| - 1]);
      GiveOne(before, last.item, last.qty)
  }

  /** What taking all the lines leaves, item by item. */
  function Taken(items: seq<Item>, lines: seq<Line>): seq<Item>
  {
    seq(|items|, i requires 0 <= i < |items| =>
      items[i].(quantity := items[i].quantity - UnitsOf(lines, i)))
  }

  function Given(items: seq<Item>, lines: seq<Line>): seq<Item>
  {
    seq(|items|, i requires 0 <= i < |items| =>
      items[i].(quantity := items[i].quantity + UnitsOf(lines, i)))
  }

  /** Every item named is live and holds all the units the lines name of it. */
  ghost predicate Enough(items: seq<Item>, lines: seq<Line>)
  {
    && InRange(lines, |items|)
    && forall i :: 0 <= i < |items| && UnitsOf(lines, i) > 0 ==>
         !items[i].deleted && items[i].quantity >= UnitsOf(lines, i)
  }

  lemma UnitsOfLast(lines: seq<Line>, i: nat)
    requires lines != []
    ensures var last := lines[|lines| - 1];
            UnitsOf(lines, i) == UnitsOf(lines[..|lines| - 1], i) + (if last.item == i then last.qty else 0)
  {
  }

  /**
   Taking the lines one after the other succeeds exactly when every item is
   live and holds the sum of its lines, and then leaves each item short of
   exactly that sum.
   */
  lemma {:induction false} TakeAllIff(items: seq<Item>, lines: seq<Line>)
    ensures TakeAll(items, lines).Ok? <==> Enough(items, lines)
    ensures TakeAll(items, lines).Ok? ==> TakeAll(items, lines).value == Taken(items, lines)
  {
    if lines == [] {
      assert Taken(items, lines) == items;
    } else {
      var prefix, last := lines[..|lines| - 1], lines[|lines| - 1];
      TakeAllIff(items, prefix);
      forall i: nat ensures UnitsOf(lines, i) == UnitsOf(prefix, i) + (if last.item == i then last.qty else 0)
                    ensures UnitsOf(prefix, i) >= 0
      {
        UnitsOfLast(lines, i);
        UnitsAreNonNegative(prefix, i);
      }
      if Enough(items, lines) {
        assert Enough(items, prefix);
        assert UnitsOf(lines, last.item) > 0;
      }
      if TakeAll(items, lines).Ok? {
        assert InRange(lines, |items|);
        assert TakeAll(items, lines).value == Taken(items, lines);
      }
    }
  }

  /** Giving the lines back fails only on a row that does not exist. */
  lemma {:induction false} GiveAllIff(items: seq<Item>, lines: seq<Line>)
    ensures GiveAll(items, lines).Ok? <==> InRange(lines, |items|)
    ensures GiveAll(items, lines).Ok? ==> GiveAll(items, lines).value == Given(items, lines)
  {
    if lines == [] {
      assert Given(items, lines) == items;
    } else {
      var prefix, last := lines[..|lines| - 1], lines[|lines| - 1];
      GiveAllIff(items, prefix);
      forall i: nat ensures UnitsOf(lines, i) == UnitsOf(prefix, i) + (if last.item == i then last.qty else 0) {
        UnitsOfLast(lines, i);
      }
      if InRange(lines, |items|) {
        assert GiveAll(items, lines).value == Given(items, lines);
      }
    }
  }

  /** Taking what was just given, or giving back what was just taken, restores every row. */
  lemma TakeGiveInverse(items: seq<Item>, lines: seq<Line>)
    ensures Given(Taken(items, lines), lines) == items
    ensures Taken(Given(items, lines), lines) == items
  {
  }

  lemma {:induction false} TakeAllStops(items: seq<Item>, lines: seq<Line>, k: nat)
    requires k <= |lines|
    requires TakeAll(items, lines[..k]).Err?
    ensures TakeAll(items, lines) == TakeAll(items, lines[..k])
  {
    if k < |lines| {
      assert lines[..|lines| - 1][..k] == lines[..k];
      TakeAllStops(items, lines[..|lines| - 1], k);
    } else {
      assert lines[..k] == lines;
    }
  }

  lemma {:induction false} GiveAllStops(items: seq<Item>, lines: seq<Line>, k: nat)
    requires k <= |lines|
    requires GiveAll(items, lines[..k]).Err?
    ensures GiveAll(items, lines) == GiveAll(items, lines[..k])
  {
    if k < |lines| {
      assert lines[..|lines| - 1][..k] == lines[..k];
      GiveAllStops(items, lines[..|lines| - 1], k);
    } else {
      assert lines[..k] == lines;
    }
  }

  /** Takes the units only if that many are there. */
  method TakeStock(tx: Tx, item: nat, qty: Units) returns (r: Result<(), Error>)
    modifies tx
    ensures match TakeOne(old(tx.tables.items), item, qty)
            case Ok(items) => r.Ok? && tx.tables == old(tx.tables).(items := items)
            case Err(e) => r == Err(e) && tx.tables == old(tx.tables)
  {
    var rows := tx.tables.items;
    var count := 0;
    if item < |rows| && !rows[item].deleted && rows[item].quantity >= qty {
      tx.tables := tx.tables.(items := rows[item := rows[item].(quantity := rows[item].quantity - qty)]);
      count := 1;
    }
    if count == 1 {
      return Ok(());
    }
    if item >= |rows| || rows[item].deleted {
      return Err(ITEM_NO_LONGER_AVAILABLE);
    }
    return Err(INSUFFICIENT_STOCK);
  }

  /** Takes the lines one after the other, stopping at the first that is short or whose row is gone. */
  method TakeLines(tx: Tx, lines: seq<Line>) returns (r: Result<(), Error>)
    modifies tx
    ensures match TakeAll(old(tx.tables.items), lines)
            case Ok(items) => r.Ok? && tx.tables == old(tx.tables).(items := items)
            case Err(e) => r == Err(e)
  {
    for k := 0 to |lines|
      invariant TakeAll(old(tx.tables.items), lines[..k]) == Ok(tx.tables.items)
      invariant tx.tables == old(tx.tables).(items := tx.tables.items)
    {
      assert lines[..k + 1][..k] == lines[..k];
      var taken := TakeStock(tx, lines[k].item, lines[k].qty);
      if taken.Err? {
        TakeAllStops(old(tx.tables.items), lines, k + 1);
        return taken;
      }
    }
    assert lines[..|lines|] == lines;
    return Ok(());
  }

  /** Adds each line's units to its row, relative to what the row holds by then. */
  method GiveLines(tx: Tx, lines: seq<Line>) returns (r: Result<(), Error>)
    modifies tx
    ensures match GiveAll(old(tx.tables.items), lines)
            case Ok(items) => r.Ok? && tx.tables == old(tx.tables).(items := items)
            case Err(e) => r == Err(e)
  {
    for k := 0 to |lines|
      invariant GiveAll(old(tx.tables.items), lines[..k]) == Ok(tx.tables.items)
      invariant tx.tables == old(tx.tables).(items := tx.tables.items)
    {
      assert lines[..k + 1][..k] == lines[..k];
      var rows, line := tx.tables.items, lines[k];
      if line.item >= |rows| {
        GiveAllStops(old(tx.tables.items), lines, k + 1);
        return Err(NOT_FOUND);
      }
      var row := rows[line.item];
      tx.tables := tx.tables.(items := rows[line.item := row.(quantity := row.quantity + line.qty)]);
    }
    assert lines[..|lines|] == lines;
    return Ok(());
  }

  /** The unlocked read before the decrements: each line on its own against the quantity read. */
  function CheckAvailable(items: seq<Item>, lines: seq<Line>): Result<(), Error>
  {
    if lines == [] then Ok(())
    else
      var last := lines[|lines| - 1];
      var _ :- CheckAvailable(items, lines[..|lines| - 1]);
      if last.item >= |items| || items[last.item].deleted then Err(ITEM_NO_LONGER_AVAILABLE)
      else if items[last.item].quantity < last.qty then Err(INSUFFICIENT_STOCK)
      else Ok(())
  }

  lemma {:induction false} CheckAvailableStops(items: seq<Item>, lines: seq<Line>, k: nat)
    requires k <= |lines|
    requires CheckAvailable(items, lines[..k]).Err?
    ensures CheckAvailable(items, lines) == CheckAvailable(items, lines[..k])
  {
    if k < |lines| {
      assert lines[..|lines| - 1][..k] == lines[..k];
      CheckAvailableStops(items, lines[..|lines| - 1], k);
    } else {
      assert lines[..k] == lines;
    }
  }

  method CheckLines(items: seq<Item>, lines: seq<Line>) returns (r: Result<(), Error>)
    ensures r == CheckAvailable(items, lines)
  {
    for k := 0 to |lines|
      invariant CheckAvailable(items, lines[..k]) == Ok(())
    {
      assert lines[..k + 1][..k] == lines[..k];
      var line := lines[k];
      if line.item >= |items| || items[line.item].deleted {
        CheckAvailableStops(items, lines, k + 1);
        return Err(ITEM_NO_LONGER_AVAILABLE);
      }
      if items[line.item].quantity < line.qty {
        CheckAvailableStops(items, lines, k + 1);
        return Err(INSUFFICIENT_STOCK);
      }
    }
    assert lines[..|lines|] == lines;
    return Ok(());
  }

  lemma {:induction false} UnitsWhenDistinct(lines: seq<Line>, k: nat)
    requires k < |lines| && Distinct(ItemsOf(lines))
    ensures UnitsOf(lines, lines[k].item) == lines[k].qty
  {
    var n := |lines| - 1;
    assert forall j :: 0 <= j <= n ==> ItemsOf(lines)[j] == lines[j].item;
    if k == n {
      SumZero(lines[..n], QtyAt(lines[k].item));
    } else {
      assert forall j :: 0 <= j < n ==> ItemsOf(lines[..n])[j] == lines[j].item;
      UnitsWhenDistinct(lines[..n], k);
    }
  }

  lemma {:induction false} AvailableLines(items: seq<Item>, lines: seq<Line>)
    requires CheckAvailable(items, lines).Ok?
    ensures forall k :: 0 <= k < |lines| ==>
              lines[k].item < |items| && !items[lines[k].item].deleted && items[lines[k].item].quantity >= lines[k].qty
  {
    if lines != [] {
      AvailableLines(items, lines[..|lines| - 1]);
    }
  }

  /** When no item is repeated, the unlocked check alone already decides whether the lines can be taken. */
  lemma CheckDecidesWhenDistinct(items: seq<Item>, lines: seq<Line>)
    requires Distinct(ItemsOf(lines))
    ensures CheckAvailable(items, lines).Ok? ==> TakeAll(items, lines).Ok?
  {
    if CheckAvailable(items, lines).Ok? {
      AvailableLines(items, lines);
      forall i | 0 <= i < |items| && UnitsOf(lines, i) > 0
        ensures !items[i].deleted && items[i].quantity >= UnitsOf(lines, i)
      {
        if forall k :: 0 <= k < |lines| ==> lines[k].item != i {
          SumZero(lines, QtyAt(i));
          assert false;
        }
        var k :| 0 <= k < |lines| && lines[k].item == i;
        UnitsWhenDistinct(lines, k);
      }
      TakeAllIff(items, lines);
    }
  }
}
