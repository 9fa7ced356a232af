/**
  The earlier draft of the engine (`io.hhplus.tdd.point.PointService`): the
  same read, validate and write sequence on the ledger, with no lock and no
  history record. Its balance rule is the one of module `Points`.
 */
module DraftEngine {
  import opened Points
  import opened PointTables
  import opened BalanceEngine
  import opened EngineRuns

  /** The ledger after one draft call, and what the call returned. */
  datatype DraftOutcome = DraftOutcome(ledger: map<int, UserPoint>, result: Result<UserPoint>)

  /** The draft `chargeUserPoint` on ledger contents: on success only the
      entry of `id` is overwritten; on failure the ledger is unchanged. */
  function DraftChargeStep(ledger: map<int, UserPoint>, id: int, amount: int, now: int): (o: DraftOutcome)
    requires WellKeyed(ledger)
    ensures WellKeyed(o.ledger)
    ensures o.result.Ok? <==> Balance(ledger, id) + amount <= MaxPoint
    ensures o.result.Ok? ==>
      && o.ledger == ledger[id := UserPoint(id, Balance(ledger, id) + amount, now)]
      && o.result.value == o.ledger[id]
    ensures o.result.Err? ==>
      && o.ledger == ledger
      && o.result.error == ExceededBalance(id, Balance(ledger, id), amount)
  {
    var userPoint := SelectById(ledger, id, now);
    match Charge(userPoint, amount)
    case Err(e) => DraftOutcome(ledger, Err(e))
    case Ok(chargedPoint) =>
      var updated := ledger[id := UserPoint(id, chargedPoint, now)];
      DraftOutcome(updated, Ok(updated[id]))
  }

  /** The draft `useUserPoint` on ledger contents, the mirror of
      `DraftChargeStep` with the floor check. */
  function DraftUseStep(ledger: map<int, UserPoint>, id: int, amount: int, now: int): (o: DraftOutcome)
    requires WellKeyed(ledger)
    ensures WellKeyed(o.ledger)
    ensures o.result.Ok? <==> Balance(ledger, id) - amount >= ZeroPoint
    ensures o.result.Ok? ==>
      && o.ledger == ledger[id := UserPoint(id, Balance(ledger, id) - amount, now)]
      && o.result.value == o.ledger[id]
    ensures o.result.Err? ==>
      && o.ledger == ledger
      && o.result.error == InsufficientBalance(id, Balance(ledger, id), amount)
  {
    var userPoint := SelectById(ledger, id, now);
    match Use(userPoint, amount)
    case Err(e) => DraftOutcome(ledger, Err(e))
    case Ok(leftPoint) =>
      var updated := ledger[id := UserPoint(id, leftPoint, now)];
      DraftOutcome(updated, Ok(updated[id]))
  }

  function DraftApply(ledger: map<int, UserPoint>, c: Call): (o: DraftOutcome)
    requires WellKeyed(ledger)
    ensures WellKeyed(o.ledger)
  {
    match c
    case ChargeCall(id, amount, now) => DraftChargeStep(ledger, id, amount, now)
    case UseCall(id, amount, now) => DraftUseStep(ledger, id, amount, now)
  }

  /** The ledger after a run of draft calls. */
  function DraftRun(ledger: map<int, UserPoint>, calls: seq<Call>): (r: map<int, UserPoint>)
    requires WellKeyed(ledger)
    ensures WellKeyed(r)
    decreases |calls|
  {
    if calls == [] then ledger else DraftRun(DraftApply(ledger, calls[0]).ledger, calls[1..])
  }

  /** For calls that do not overlap, run for run, the draft computes the
      same ledger as the locked engine; the engine also extends the history
      by one record per successful call (`RunHistory`), which the draft
      never writes. Overlapping draft calls can lose an update
      (`DraftOverlapLosesUpdate`). */
  lemma {:induction false} DraftRunMatchesEngine(ledger: map<int, UserPoint>, history: seq<PointHistory>, calls: seq<Call>)
    requires WellKeyed(ledger)
    ensures DraftRun(ledger, calls) == Run(Tables(ledger, history), calls).tables.ledger
    decreases |calls|
  {
    if calls != [] {
      var c := calls[0];
      var d := DraftApply(ledger, c);
      var o := Apply(Tables(ledger, history), c);
      assert d.ledger == o.tables.ledger && d.result == o.result;
      DraftRunMatchesEngine(d.ledger, o.tables.history, calls[1..]);
    }
  }

  /** Without a lock two draft charges on one account can both read the
      balance before either writes it; the later write then overwrites the
      earlier one. Charges of 10 and 20 on an empty account overlapped this
      way end at 20, where the same calls run one after the other end at 30. */
  lemma DraftOverlapLosesUpdate(now: int)
    ensures var empty: map<int, UserPoint> := map[];
      var first := SelectById(empty, 1, now);
      var second := SelectById(empty, 1, now);
      var afterFirst := empty[1 := UserPoint(1, Charge(first, 10).value, now)];
      var afterSecond := afterFirst[1 := UserPoint(1, Charge(second, 20).value, now)];
      && Balance(afterSecond, 1) == 20
      && Balance(DraftRun(empty, [ChargeCall(1, 10, now), ChargeCall(1, 20, now)]), 1) == 30
  {
    var empty: map<int, UserPoint> := map[];
    var calls := [ChargeCall(1, 10, now), ChargeCall(1, 20, now)];
    var one := DraftApply(empty, calls[0]).ledger;
    assert Balance(one, 1) == 10;
    var two := DraftApply(one, calls[1]).ledger;
    assert Balance(two, 1) == 30;
    assert calls[1..][1..] == [];
    assert DraftRun(one, calls[1..]) == DraftRun(two, []) == two;
  }

  class DraftPointService {
    var ledger: map<int, UserPoint>
    var history: seq<PointHistory>

    ghost predicate Valid()
      reads this
    {
      WellKeyed(ledger)
    }

    constructor (userPointTable: map<int, UserPoint>, pointHistoryTable: seq<PointHistory>)
      requires WellKeyed(userPointTable)
      ensures Valid()
      ensures ledger == userPointTable && history == pointHistoryTable
    {
      ledger := userPointTable;
      history := pointHistoryTable;
    }

    /** `detailUserPoint`: the stored record, or a zero-balance record for an
        unknown id; a read, so nothing changes. */
    function DetailUserPoint(id: int, now: int): (u: UserPoint)
      reads this
      requires WellKeyed(ledger)
      ensures u.id == id && u.point == Balance(ledger, id)
      ensures id in ledger ==> u == ledger[id]
    {
      SelectById(ledger, id, now)
    }

    /** `listsAllPointHistory`: exactly the records of `id`, none added. */
    function ListsAllPointHistory(id: int): (r: seq<PointHistory>)
      reads this
      ensures |r| <= |history|
      ensures forall x :: x in r <==> x in history && x.userId == id
    {
      HistoryOf(history, id)
    }

    method ChargeUserPoint(id: int, amount: int, now: int) returns (r: Result<UserPoint>)
      requires Valid()
      modifies this
      ensures Valid()
      ensures DraftOutcome(ledger, r) == DraftChargeStep(old(ledger), id, amount, now)
      ensures history == old(history)
    {
      var userPoint := DetailUserPoint(id, now);
      var charged := Charge(userPoint, amount);
      if charged.Err? {
        return Err(charged.error);
      }
      ledger := ledger[id := UserPoint(id, charged.value, now)];
      r := Ok(ledger[id]);
    }

    method UseUserPoint(id: int, amount: int, now: int) returns (r: Result<UserPoint>)
      requires Valid()
      modifies this
      ensures Valid()
      ensures DraftOutcome(ledger, r) == DraftUseStep(old(ledger), id, amount, now)
      ensures history == old(history)
    {
      var userPoint := DetailUserPoint(id, now);
      var left := Use(userPoint, amount);
      if left.Err? {
        return Err(left.error);
      }
      ledger := ledger[id := UserPoint(id, left.value, now)];
      r := Ok(ledger[id]);
    }
  }

  /** The draft's service tests, replayed against the contracts above: an
      account at 5000 charged 3000 reads 8000, used 3000 reads 2000, and
      10000 charged or used against it fails with the ledger unchanged. */
  method DraftServiceScenarios(now: int)
  {
    var account := UserPoint(10, 5000, 3000);
    var service := new DraftPointService(map[10 := account], []);
    assert service.DetailUserPoint(10, now) == account;
    assert service.DetailUserPoint(99, now).point == 0;

    var r := service.ChargeUserPoint(10, 3000, now);
    assert r == Ok(UserPoint(10, 8000, now));

    service := new DraftPointService(map[10 := account], []);
    r := service.UseUserPoint(10, 3000, now);
    assert r == Ok(UserPoint(10, 2000, now));

    service := new DraftPointService(map[10 := account], []);
    r := service.UseUserPoint(10, 10000, now);
    assert r == Err(InsufficientBalance(10, 5000, 10000));
    r := service.ChargeUserPoint(10, 10000, now);
    assert r == Err(ExceededBalance(10, 5000, 10000));
    assert service.ledger == map[10 := account] && service.history == [];
  }
}
