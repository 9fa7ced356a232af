/**
  The balance engine (`io.hhplus.tdd.service.PointService`). Each charge or
  use takes the account's lock, reads the balance, validates it with the
  `UserPoint` rule, appends one history record, overwrites the ledger entry
  and releases the lock. `ChargeStep` and `UseStep` state one call's effect
  on the two stores as values; the class `PointService` performs the same
  steps in place and is proved against them.
 */
module BalanceEngine {
  import opened Points
  import opened PointTables

  /** The contents of the two stores. */
  datatype Tables = Tables(ledger: map<int, UserPoint>, history: seq<PointHistory>)

  /** The stores after one call, and what the call returned. */
  datatype Outcome = Outcome(tables: Tables, result: Result<UserPoint>)

  /** `chargeUserPoint` on store contents: on success exactly one ledger entry
      is overwritten and exactly one CHARGE record of `amount` is appended;
      on failure nothing changes. */
  function ChargeStep(t: Tables, id: int, amount: int, now: int): (o: Outcome)
    requires WellKeyed(t.ledger)
    ensures WellKeyed(o.tables.ledger)
    ensures o.result.Ok? <==> Balance(t.ledger, id) + amount <= MaxPoint
    ensures o.result.Ok? ==>
      && o.tables.ledger == t.ledger[id := UserPoint(id, Balance(t.ledger, id) + amount, now)]
      && o.tables.history == t.history + [PointHistory(id, amount, CHARGE, now)]
      && o.result.value == o.tables.ledger[id]
    ensures o.result.Err? ==>
      && o.tables == t
      && o.result.error == ExceededBalance(id, Balance(t.ledger, id), amount)
  {
    var userPoint := SelectById(t.ledger, id, now);
    match Charge(userPoint, amount)
    case Err(e) => Outcome(t, Err(e))
    case Ok(chargedPoint) =>
      var history := t.history + [PointHistory(id, amount, CHARGE, now)];
      var ledger := t.ledger[id := UserPoint(id, chargedPoint, now)];
      Outcome(Tables(ledger, history), Ok(ledger[id]))
  }

  /** `useUserPoint` on store contents: the mirror of `ChargeStep`, with a
      USE record and the floor check. */
  function UseStep(t: Tables, id: int, amount: int, now: int): (o: Outcome)
    requires WellKeyed(t.ledger)
    ensures WellKeyed(o.tables.ledger)
    ensures o.result.Ok? <==> Balance(t.ledger, id) - amount >= ZeroPoint
    ensures o.result.Ok? ==>
      && o.tables.ledger == t.ledger[id := UserPoint(id, Balance(t.ledger, id) - amount, now)]
      && o.tables.history == t.history + [PointHistory(id, amount, USE, now)]
      && o.result.value == o.tables.ledger[id]
    ensures o.result.Err? ==>
      && o.tables == t
      && o.result.error == InsufficientBalance(id, Balance(t.ledger, id), amount)
  {
    var userPoint := SelectById(t.ledger, id, now);
    match Use(userPoint, amount)
    case Err(e) => Outcome(t, Err(e))
    case Ok(leftPoint) =>
      var history := t.history + [PointHistory(id, amount, USE, now)];
      var ledger := t.ledger[id := UserPoint(id, leftPoint, now)];
      Outcome(Tables(ledger, history), Ok(ledger[id]))
  }

  class PointService {
    var ledger: map<int, UserPoint>
    var history: seq<PointHistory>
    /** The accounts whose lock is currently held. */
    ghost var locked: set<int>

    /** The ledger is keyed by account id, and no lock is held between calls. */
    ghost predicate Valid()
      reads this
    {
      WellKeyed(ledger) && locked == {}
    }

    function Snapshot(): Tables
      reads this
    {
      Tables(ledger, history)
    }

    constructor (userPointTable: map<int, UserPoint>, pointHistoryTable: seq<PointHistory>)
      requires WellKeyed(userPointTable)
      ensures Valid()
      ensures ledger == userPointTable && history == pointHistoryTable
    {
      ledger := userPointTable;
      history := pointHistoryTable;
      locked := {};
    }

    /** `detailUserPoint`: the stored record, or a zero-balance record for an
        unknown id; a read, so neither store changes. */
    function DetailUserPoint(id: int, now: int): (u: UserPoint)
      reads this
      requires WellKeyed(ledger)
      ensures u.id == id && u.point == Balance(ledger, id)
      ensures id in ledger ==> u == ledger[id]
    {
      SelectById(ledger, id, now)
    }

    /** `listsAllPointHistory`: exactly the records of `id`, none added. */
    function ListsAllPointHistory(id: int): (r: seq<PointHistory>)
      reads this
      ensures |r| <= |history|
      ensures forall x :: x in r <==> x in history && x.userId == id
    {
      HistoryOf(history, id)
    }

    method ChargeUserPoint(id: int, amount: int, now: int) returns (r: Result<UserPoint>)
      requires Valid()
      modifies this
      ensures Valid()
      ensures Outcome(Snapshot(), r) == ChargeStep(old(Snapshot()), id, amount, now)
    {
      locked := locked + {id};
      var userPoint := DetailUserPoint(id, now);
      var charged := Charge(userPoint, amount);
      if charged.Err? {
        r := Err(charged.error);
      } else {
        assert id in locked;  // both writes happen while the account's lock is held
        history := history + [PointHistory(id, amount, CHARGE, now)];
        ledger := ledger[id := UserPoint(id, charged.value, now)];
        r := Ok(ledger[id]);
      }
      // released on both exit paths, as the `finally` block does
      locked := locked - {id};
    }

    method UseUserPoint(id: int, amount: int, now: int) returns (r: Result<UserPoint>)
      requires Valid()
      modifies this
      ensures Valid()
      ensures Outcome(Snapshot(), r) == UseStep(old(Snapshot()), id, amount, now)
    {
      locked := locked + {id};
      var userPoint := DetailUserPoint(id, now);
      var left := Use(userPoint, amount);
      if left.Err? {
        r := Err(left.error);
      } else {
        assert id in locked;  // both writes happen while the account's lock is held
        history := history + [PointHistory(id, amount, USE, now)];
        ledger := ledger[id := UserPoint(id, left.value, now)];
        r := Ok(ledger[id]);
      }
      locked := locked - {id};
    }
  }

  /** The engine's service tests, replayed against the contracts above: an
      account at 5000 reads 5000 and an unknown one reads zero with no
      history; charging 3000 gives 8000 and using 3000 gives 2000, each
      appending one record of its amount; charging or using 10000 against
      5000 fails with both stores unchanged. */
  method EngineScenarios(now: int)
  {
    var account := UserPoint(10, 5000, 3000);
    var service := new PointService(map[10 := account], []);
    assert service.DetailUserPoint(10, now) == account;
    assert service.DetailUserPoint(99, now).point == 0;
    assert service.ListsAllPointHistory(99) == [];

    var r := service.ChargeUserPoint(10, 3000, now);
    assert r == Ok(UserPoint(10, 8000, now));
    assert service.history == [PointHistory(10, 3000, CHARGE, now)];

    service := new PointService(map[10 := account], []);
    r := service.UseUserPoint(10, 3000, now);
    assert r == Ok(UserPoint(10, 2000, now));
    assert service.history == [PointHistory(10, 3000, USE, now)];

    service := new PointService(map[10 := account], []);
    r := service.UseUserPoint(10, 10000, now);
    assert r == Err(InsufficientBalance(10, 5000, 10000));
    r := service.ChargeUserPoint(10, 10000, now);
    assert r == Err(ExceededBalance(10, 5000, 10000));
    assert service.ledger == map[10 := account] && service.history == [];
  }
}
