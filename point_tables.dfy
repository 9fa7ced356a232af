/**
  The interface of the two stores the engines work against: the ledger
  (`UserPointTable`), a map from account id to balance record that reads as a
  zero balance for an unknown id, and the history (`PointHistoryTable`), an
  append-only sequence of transaction records queried by account id.
 */
module PointTables {
  import opened Points

  datatype TransactionType = CHARGE | USE

  /** One transaction record: the account, the operation's amount (never the
      resulting balance), its kind and the time it was recorded. */
  datatype PointHistory = PointHistory(userId: int, amount: int, kind: TransactionType, updateMillis: int)

  /** The ledger stores each record under its own account id. */
  predicate WellKeyed(ledger: map<int, UserPoint>) {
    forall k :: k in ledger ==> ledger[k].id == k
  }

  /** `selectById`: the stored record, or a zero-balance record for an
      unknown id. Never fails. */
  function SelectById(ledger: map<int, UserPoint>, id: int, now: int): (u: UserPoint)
    requires WellKeyed(ledger)
    ensures u.id == id
    ensures id in ledger ==> u == ledger[id]
    ensures id !in ledger ==> u.point == ZeroPoint
  {
    if id in ledger then ledger[id] else Empty(id, now)
  }

  /** The balance the ledger reports for `id`. */
  function Balance(ledger: map<int, UserPoint>, id: int): int {
    if id in ledger then ledger[id].point else ZeroPoint
  }

  /** `selectAllByUserId`: the records of `userId`, in insertion order. */
  function HistoryOf(history: seq<PointHistory>, userId: int): (r: seq<PointHistory>)
    ensures |r| <= |history|
    ensures forall x :: x in r <==> x in history && x.userId == userId
  {
    if history == [] then []
    else (if history[0].userId == userId then [history[0]] else []) + HistoryOf(history[1..], userId)
  }

  /** Filtering by account distributes over appending to the history. */
  lemma {:induction false} HistoryOfConcat(a: seq<PointHistory>, b: seq<PointHistory>, userId: int)
    ensures HistoryOf(a + b, userId) == HistoryOf(a, userId) + HistoryOf(b, userId)
  {
    if a == [] {
      assert a + b == b;
    } else {
      assert (a + b)[0] == a[0];
      assert (a + b)[1..] == a[1..] + b;
      HistoryOfConcat(a[1..], b, userId);
    }
  }

  /** Appending one record adds it to its own account's history and to no other. */
  lemma HistoryOfAppend(h: seq<PointHistory>, x: PointHistory, userId: int)
    ensures HistoryOf(h + [x], userId)
         == HistoryOf(h, userId) + (if x.userId == userId then [x] else [])
  {
    HistoryOfConcat(h, [x], userId);
  }

  /** The net effect of a history on a balance: charges add, uses subtract. */
  function SignedSum(history: seq<PointHistory>): int {
    if history == [] then 0
    else (if history[0].kind == CHARGE then history[0].amount else -history[0].amount)
         + SignedSum(history[1..])
  }

  lemma {:induction false} SignedSumConcat(a: seq<PointHistory>, b: seq<PointHistory>)
    ensures SignedSum(a + b) == SignedSum(a) + SignedSum(b)
  {
    if a == [] {
      assert a + b == b;
    } else {
      assert (a + b)[0] == a[0];
      assert (a + b)[1..] == a[1..] + b;
      SignedSumConcat(a[1..], b);
    }
  }
}
