/**
  Sequences of charge and use calls on the balance engine. Every call on an
  account runs under that account's lock, and each store operation is taken
  to be atomic, so a concurrent batch ends in the state of some sequential
  order of its calls; the lemmas here hold for every such order. They
  restate the end-state claims of the engine's concurrency tests: no update
  is lost, the balance moves by the signed sum of the successful amounts,
  and each successful call leaves one record.
 */
module EngineRuns {
  import opened Points
  import opened PointTables
  import opened BalanceEngine

  /** One request to the engine. */
  datatype Call = ChargeCall(id: int, amount: int, now: int) | UseCall(id: int, amount: int, now: int)

  function Apply(t: Tables, c: Call): (o: Outcome)
    requires WellKeyed(t.ledger)
    ensures WellKeyed(o.tables.ledger)
  {
    match c
    case ChargeCall(id, amount, now) => ChargeStep(t, id, amount, now)
    case UseCall(id, amount, now) => UseStep(t, id, amount, now)
  }

  /** The record a successful call leaves in the history. */
  function Record(c: Call): PointHistory {
    PointHistory(c.id, c.amount, if c.ChargeCall? then CHARGE else USE, c.now)
  }

  /** What a successful call adds to its account's balance. */
  function Signed(c: Call): int {
    if c.ChargeCall? then c.amount else -c.amount
  }

  /** What one call does to its own account: on success the balance moves
      by the signed amount and the history gains exactly its record; on
      failure neither store changes. */
  lemma ApplyEffect(t: Tables, c: Call)
    requires WellKeyed(t.ledger)
    ensures var o := Apply(t, c);
      o.result.Ok? ==>
        && o.tables.history == t.history + [Record(c)]
        && Balance(o.tables.ledger, c.id) == Balance(t.ledger, c.id) + Signed(c)
    ensures var o := Apply(t, c);
      o.result.Err? ==> o.tables == t
  {
  }

  /** A successful call adds its record to its own account's history. */
  lemma ApplyOwnHistory(t: Tables, c: Call)
    requires WellKeyed(t.ledger)
    ensures var o := Apply(t, c);
      o.result.Ok? ==> HistoryOf(o.tables.history, c.id) == HistoryOf(t.history, c.id) + [Record(c)]
  {
    HistoryOfAppend(t.history, Record(c), c.id);
  }

  /** One call leaves every other account alone: its ledger entry and its
      history are as they were. */
  lemma ApplyFrame(t: Tables, c: Call, other: int)
    requires WellKeyed(t.ledger) && other != c.id
    ensures var o := Apply(t, c);
      && (other in t.ledger <==> other in o.tables.ledger)
      && (other in t.ledger ==> o.tables.ledger[other] == t.ledger[other])
      && Balance(o.tables.ledger, other) == Balance(t.ledger, other)
      && HistoryOf(o.tables.history, other) == HistoryOf(t.history, other)
  {
    HistoryOfAppend(t.history, Record(c), other);
  }

  /** The state after a run of calls, and the calls that succeeded, in order. */
  datatype Trace = Trace(tables: Tables, succeeded: seq<Call>)

  function Run(t: Tables, calls: seq<Call>): (r: Trace)
    requires WellKeyed(t.ledger)
    ensures WellKeyed(r.tables.ledger)
    ensures |r.succeeded| <= |calls|
    ensures forall c :: c in r.succeeded ==> c in calls
    decreases |calls|
  {
    if calls == [] then Trace(t, [])
    else
      var o := Apply(t, calls[0]);
      var rest := Run(o.tables, calls[1..]);
      Trace(rest.tables, (if o.result.Ok? then [calls[0]] else []) + rest.succeeded)
  }

  function Records(calls: seq<Call>): (r: seq<PointHistory>)
    ensures |r| == |calls|
  {
    if calls == [] then [] else [Record(calls[0])] + Records(calls[1..])
  }

  /** The signed sum of the amounts of the calls on account `id`. */
  function Net(calls: seq<Call>, id: int): int {
    if calls == [] then 0
    else (if calls[0].id == id then Signed(calls[0]) else 0) + Net(calls[1..], id)
  }

  /** The number of calls on account `id`. */
  function CountOn(calls: seq<Call>, id: int): (n: nat)
    ensures n <= |calls|
  {
    if calls == [] then 0
    else (if calls[0].id == id then 1 else 0) + CountOn(calls[1..], id)
  }

  lemma {:induction false} RecordsConcat(a: seq<Call>, b: seq<Call>)
    ensures Records(a + b) == Records(a) + Records(b)
  {
    if a != [] {
      assert (a + b)[0] == a[0];
      assert (a + b)[1..] == a[1..] + b;
      RecordsConcat(a[1..], b);
    } else {
      assert a + b == b;
    }
  }

  /** The history only grows, by one record per successful call, in the
      order the calls ran. */
  lemma {:induction false} RunHistory(t: Tables, calls: seq<Call>)
    requires WellKeyed(t.ledger)
    ensures Run(t, calls).tables.history == t.history + Records(Run(t, calls).succeeded)
    decreases |calls|
  {
    if calls != [] {
      var o := Apply(t, calls[0]);
      var first := if o.result.Ok? then [calls[0]] else [];
      var rest := Run(o.tables, calls[1..]);
      assert Run(t, calls) == Trace(rest.tables, first + rest.succeeded);
      RunHistory(o.tables, calls[1..]);
      RecordsConcat(first, rest.succeeded);
      if o.result.Ok? {
        assert Records(first) == [Record(calls[0])] + Records([]);
      } else {
        assert Records(first) == [];
      }
      assert o.tables.history == t.history + Records(first);
    }
  }

  lemma {:induction false} NetConcat(a: seq<Call>, b: seq<Call>, id: int)
    ensures Net(a + b, id) == Net(a, id) + Net(b, id)
  {
    if a != [] {
      assert (a + b)[0] == a[0];
      assert (a + b)[1..] == a[1..] + b;
      NetConcat(a[1..], b, id);
    } else {
      assert a + b == b;
    }
  }

  /** No lost update: each account's balance ends at its starting balance
      plus the signed sum of that account's successful calls. */
  lemma {:induction false} RunBalance(t: Tables, calls: seq<Call>, id: int)
    requires WellKeyed(t.ledger)
    ensures Balance(Run(t, calls).tables.ledger, id) == Balance(t.ledger, id) + Net(Run(t, calls).succeeded, id)
    decreases |calls|
  {
    if calls != [] {
      var o := Apply(t, calls[0]);
      var first := if o.result.Ok? then [calls[0]] else [];
      var rest := Run(o.tables, calls[1..]);
      if id == calls[0].id {
        ApplyEffect(t, calls[0]);
      } else {
        ApplyFrame(t, calls[0], id);
      }
      assert Balance(o.tables.ledger, id) == Balance(t.ledger, id) + Net(first, id);
      RunBalance(o.tables, calls[1..], id);
      NetConcat(first, rest.succeeded, id);
      assert Run(t, calls) == Trace(rest.tables, first + rest.succeeded);
    }
  }

  lemma {:induction false} RecordsOn(calls: seq<Call>, id: int)
    ensures |HistoryOf(Records(calls), id)| == CountOn(calls, id)
  {
    if calls != [] {
      assert Records(calls) == [Record(calls[0])] + Records(calls[1..]);
      HistoryOfConcat([Record(calls[0])], Records(calls[1..]), id);
      assert [Record(calls[0])][1..] == [];
      RecordsOn(calls[1..], id);
    }
  }

  /** Each account's history grows by exactly its number of successful calls. */
  lemma RunHistoryCount(t: Tables, calls: seq<Call>, id: int)
    requires WellKeyed(t.ledger)
    ensures |HistoryOf(Run(t, calls).tables.history, id)|
         == |HistoryOf(t.history, id)| + CountOn(Run(t, calls).succeeded, id)
  {
    var r := Run(t, calls);
    RunHistory(t, calls);
    HistoryOfConcat(t.history, Records(r.succeeded), id);
    RecordsOn(r.succeeded, id);
  }

  /** Balance and history agree: every account's balance is the signed sum
      of its own history. */
  ghost predicate Consistent(t: Tables) {
    forall id :: Balance(t.ledger, id) == SignedSum(HistoryOf(t.history, id))
  }

  lemma EmptyTablesConsistent()
    ensures Consistent(Tables(map[], []))
  {
  }

  /** No call, succeeding or failing, leaves balance and history
      inconsistent with each other. */
  lemma ApplyKeepsConsistent(t: Tables, c: Call)
    requires WellKeyed(t.ledger) && Consistent(t)
    ensures Consistent(Apply(t, c).tables)
  {
    var o := Apply(t, c);
    if o.result.Ok? {
      forall id
        ensures Balance(o.tables.ledger, id) == SignedSum(HistoryOf(o.tables.history, id))
      {
        if id == c.id {
          ApplyEffect(t, c);
          ApplyOwnHistory(t, c);
          SignedSumConcat(HistoryOf(t.history, id), [Record(c)]);
          assert SignedSum([Record(c)]) == Signed(c);
        } else {
          ApplyFrame(t, c, id);
        }
      }
    }
  }

  lemma {:induction false} RunKeepsConsistent(t: Tables, calls: seq<Call>)
    requires WellKeyed(t.ledger) && Consistent(t)
    ensures Consistent(Run(t, calls).tables)
    decreases |calls|
  {
    if calls != [] {
      ApplyKeepsConsistent(t, calls[0]);
      RunKeepsConsistent(Apply(t, calls[0]).tables, calls[1..]);
    }
  }

  /** Every stored balance lies within [ZeroPoint, MaxPoint]. */
  ghost predicate Bounded(t: Tables) {
    forall k :: k in t.ledger ==> InBounds(t.ledger[k].point)
  }

  /** The code does not reject negative amounts, so the bounds are kept only
      by calls whose amount is not negative. */
  lemma ApplyKeepsBounds(t: Tables, c: Call)
    requires WellKeyed(t.ledger) && Bounded(t) && c.amount >= 0
    ensures Bounded(Apply(t, c).tables)
  {
    ApplyEffect(t, c);
  }

  lemma {:induction false} RunKeepsBounds(t: Tables, calls: seq<Call>)
    requires WellKeyed(t.ledger) && Bounded(t)
    requires forall c :: c in calls ==> c.amount >= 0
    ensures Bounded(Run(t, calls).tables)
    decreases |calls|
  {
    if calls != [] {
      ApplyKeepsBounds(t, calls[0]);
      assert forall c :: c in calls[1..] ==> c in calls;
      RunKeepsBounds(Apply(t, calls[0]).tables, calls[1..]);
    }
  }

  /** Non-negative charges on `id` add up to a non-negative net, and
      non-negative uses to a non-positive one. */
  lemma {:induction false} NetSign(calls: seq<Call>, id: int)
    ensures (forall c :: c in calls ==> c.ChargeCall? && c.id == id && c.amount >= 0) ==> Net(calls, id) >= 0
    ensures (forall c :: c in calls ==> c.UseCall? && c.id == id && c.amount >= 0) ==> Net(calls, id) <= 0
  {
    if calls != [] {
      assert calls[0] in calls;
      assert forall c :: c in calls[1..] ==> c in calls;
      NetSign(calls[1..], id);
    }
  }

  /** A batch of non-negative charges on one account that fits under the
      ceiling succeeds in full, in any order: the balance rises by the sum
      of the amounts, which is their net. */
  lemma {:induction false} ChargesAllSucceed(t: Tables, calls: seq<Call>, id: int)
    requires WellKeyed(t.ledger)
    requires forall c :: c in calls ==> c.ChargeCall? && c.id == id && c.amount >= 0
    requires Balance(t.ledger, id) + Net(calls, id) <= MaxPoint
    ensures Run(t, calls).succeeded == calls
    ensures Balance(Run(t, calls).tables.ledger, id) == Balance(t.ledger, id) + Net(calls, id)
    decreases |calls|
  {
    if calls != [] {
      var c := calls[0];
      assert c in calls;
      var o := Apply(t, c);
      assert forall x :: x in calls[1..] ==> x in calls;
      NetSign(calls[1..], id);
      assert o.result.Ok?;
      ApplyEffect(t, c);
      ChargesAllSucceed(o.tables, calls[1..], id);
      assert Run(t, calls) == Trace(Run(o.tables, calls[1..]).tables, [c] + Run(o.tables, calls[1..]).succeeded);
      assert [c] + calls[1..] == calls;
    }
  }

  /** A batch of non-negative uses on one account that the balance covers
      succeeds in full, in any order: the balance falls by the sum of the
      amounts, which is minus their net. */
  lemma {:induction false} UsesAllSucceed(t: Tables, calls: seq<Call>, id: int)
    requires WellKeyed(t.ledger)
    requires forall c :: c in calls ==> c.UseCall? && c.id == id && c.amount >= 0
    requires Balance(t.ledger, id) + Net(calls, id) >= ZeroPoint
    ensures Run(t, calls).succeeded == calls
    ensures Balance(Run(t, calls).tables.ledger, id) == Balance(t.ledger, id) + Net(calls, id)
    decreases |calls|
  {
    if calls != [] {
      var c := calls[0];
      assert c in calls;
      var o := Apply(t, c);
      assert forall x :: x in calls[1..] ==> x in calls;
      NetSign(calls[1..], id);
      assert o.result.Ok?;
      ApplyEffect(t, c);
      UsesAllSucceed(o.tables, calls[1..], id);
      assert Run(t, calls) == Trace(Run(o.tables, calls[1..]).tables, [c] + Run(o.tables, calls[1..]).succeeded);
      assert [c] + calls[1..] == calls;
    }
  }

  lemma {:induction false} CountOnAll(calls: seq<Call>, id: int)
    requires forall c :: c in calls ==> c.id == id
    ensures CountOn(calls, id) == |calls|
  {
    if calls != [] {
      assert calls[0] in calls;
      assert forall c :: c in calls[1..] ==> c in calls;
      CountOnAll(calls[1..], id);
    }
  }

  /** The end state of concurrent charges on one account: the balance is
      the starting balance plus the sum, with one new record per charge. */
  lemma ChargeBatchEndState(t: Tables, calls: seq<Call>, id: int)
    requires WellKeyed(t.ledger)
    requires forall c :: c in calls ==> c.ChargeCall? && c.id == id && c.amount >= 0
    requires Balance(t.ledger, id) + Net(calls, id) <= MaxPoint
    ensures Balance(Run(t, calls).tables.ledger, id) == Balance(t.ledger, id) + Net(calls, id)
    ensures |HistoryOf(Run(t, calls).tables.history, id)| == |HistoryOf(t.history, id)| + |calls|
  {
    ChargesAllSucceed(t, calls, id);
    RunHistoryCount(t, calls, id);
    CountOnAll(calls, id);
  }

  /** The end state of concurrent uses on one account: the balance is the
      starting balance minus the sum, with one new record per use. */
  lemma UseBatchEndState(t: Tables, calls: seq<Call>, id: int)
    requires WellKeyed(t.ledger)
    requires forall c :: c in calls ==> c.UseCall? && c.id == id && c.amount >= 0
    requires Balance(t.ledger, id) + Net(calls, id) >= ZeroPoint
    ensures Balance(Run(t, calls).tables.ledger, id) == Balance(t.ledger, id) + Net(calls, id)
    ensures |HistoryOf(Run(t, calls).tables.history, id)| == |HistoryOf(t.history, id)| + |calls|
  {
    UsesAllSucceed(t, calls, id);
    RunHistoryCount(t, calls, id);
    CountOnAll(calls, id);
  }

  /** A charge of each amount on `id`, each followed at once by a use of the
      same amount. */
  function Pairs(id: int, amounts: seq<int>, now: int): (calls: seq<Call>)
    ensures |calls| == 2 * |amounts|
    ensures forall c :: c in calls ==> c.id == id
  {
    if amounts == [] then []
    else [ChargeCall(id, amounts[0], now), UseCall(id, amounts[0], now)] + Pairs(id, amounts[1..], now)
  }

  /** Running a call followed by more calls. */
  lemma RunCons(t: Tables, c: Call, rest: seq<Call>)
    requires WellKeyed(t.ledger)
    ensures var o := Apply(t, c);
      Run(t, [c] + rest)
      == Trace(Run(o.tables, rest).tables, (if o.result.Ok? then [c] else []) + Run(o.tables, rest).succeeded)
  {
    assert ([c] + rest)[0] == c && ([c] + rest)[1..] == rest;
  }

  /** Charge-then-use pairs all succeed and leave the balance where it
      started. */
  lemma {:induction false} PairsRestore(t: Tables, id: int, amounts: seq<int>, now: int)
    requires WellKeyed(t.ledger)
    requires InBounds(Balance(t.ledger, id))
    requires forall a :: a in amounts ==> Balance(t.ledger, id) + a <= MaxPoint
    ensures Run(t, Pairs(id, amounts, now)).succeeded == Pairs(id, amounts, now)
    ensures Balance(Run(t, Pairs(id, amounts, now)).tables.ledger, id) == Balance(t.ledger, id)
    decreases |amounts|
  {
    if amounts != [] {
      var a := amounts[0];
      assert a in amounts;
      var charge, use := ChargeCall(id, a, now), UseCall(id, a, now);
      var tail := Pairs(id, amounts[1..], now);
      var o1 := Apply(t, charge);
      ApplyEffect(t, charge);
      var o2 := Apply(o1.tables, use);
      ApplyEffect(o1.tables, use);
      assert forall x :: x in amounts[1..] ==> x in amounts;
      PairsRestore(o2.tables, id, amounts[1..], now);
      RunCons(o1.tables, use, tail);
      RunCons(t, charge, [use] + tail);
      assert Pairs(id, amounts, now) == [charge] + ([use] + tail);
    }
  }

  /** The end state of concurrent charge-then-use pairs: the balance is
      restored and the account gains two records per pair. */
  lemma PairBatchEndState(t: Tables, id: int, amounts: seq<int>, now: int)
    requires WellKeyed(t.ledger)
    requires InBounds(Balance(t.ledger, id))
    requires forall a :: a in amounts ==> Balance(t.ledger, id) + a <= MaxPoint
    ensures Balance(Run(t, Pairs(id, amounts, now)).tables.ledger, id) == Balance(t.ledger, id)
    ensures |HistoryOf(Run(t, Pairs(id, amounts, now)).tables.history, id)|
         == |HistoryOf(t.history, id)| + 2 * |amounts|
  {
    var calls := Pairs(id, amounts, now);
    PairsRestore(t, id, amounts, now);
    RunHistoryCount(t, calls, id);
    CountOnAll(calls, id);
  }

  /** Any order of calls on `id` whose running balance never leaves the
      bounds succeeds in full: no call is refused, and the balance ends at
      its start plus the net of the calls. */
  lemma {:induction false} PrefixBoundedAllSucceed(t: Tables, calls: seq<Call>, id: int)
    requires WellKeyed(t.ledger)
    requires forall c :: c in calls ==> c.id == id
    requires forall k :: 0 <= k <= |calls| ==> InBounds(Balance(t.ledger, id) + Net(calls[..k], id))
    ensures Run(t, calls).succeeded == calls
    ensures Balance(Run(t, calls).tables.ledger, id) == Balance(t.ledger, id) + Net(calls, id)
    decreases |calls|
  {
    if calls != [] {
      var c, rest := calls[0], calls[1..];
      assert c in calls;
      assert [c][1..] == [];
      assert calls[..1] == [c];
      assert InBounds(Balance(t.ledger, id) + Net(calls[..1], id));
      assert Net([c], id) == Signed(c);
      var o := Apply(t, c);
      ApplyEffect(t, c);
      assert o.result.Ok?;
      forall k | 0 <= k <= |rest|
        ensures InBounds(Balance(o.tables.ledger, id) + Net(rest[..k], id))
      {
        assert calls[..k + 1] == [c] + rest[..k];
        NetConcat([c], rest[..k], id);
      }
      assert forall x :: x in rest ==> x in calls;
      PrefixBoundedAllSucceed(o.tables, rest, id);
      RunCons(t, c, rest);
      assert [c] + rest == calls;
      NetConcat([c], rest, id);
    }
  }

  /** A non-empty multiset has an element. */
  lemma SomeElement(m: multiset<int>)
    requires m != multiset{}
    ensures exists x :: x in m
  {
    if forall x :: x !in m {
      assert false;
    }
  }

  /** The sum of a multiset of amounts. */
  ghost function MSum(m: multiset<int>): int
    decreases |m|
  {
    if m == multiset{} then 0
    else
      SomeElement(m);
      var x :| x in m;
      x + MSum(m - multiset{x})
  }

  /** The sum does not depend on which element is taken out first. */
  lemma {:induction false} MSumRemove(m: multiset<int>, a: int)
    requires a in m
    ensures MSum(m) == a + MSum(m - multiset{a})
    decreases |m|
  {
    var x :| x in m && MSum(m) == x + MSum(m - multiset{x});
    if x != a {
      assert a in m - multiset{x};
      MSumRemove(m - multiset{x}, a);
      assert x in m - multiset{a};
      MSumRemove(m - multiset{a}, x);
      assert m - multiset{x} - multiset{a} == m - multiset{a} - multiset{x};
    }
  }

  lemma MSumAdd(m: multiset<int>, a: int)
    ensures MSum(m + multiset{a}) == MSum(m) + a
  {
    MSumRemove(m + multiset{a}, a);
    assert m + multiset{a} - multiset{a} == m;
  }

  lemma {:induction false} MSumNonNegative(m: multiset<int>)
    requires forall a :: a in m ==> a >= 0
    ensures MSum(m) >= 0
    decreases |m|
  {
    if m != multiset{} {
      SomeElement(m);
      var x :| x in m;
      MSumRemove(m, x);
      MSumNonNegative(m - multiset{x});
    }
  }

  /** The sum of a sequence of amounts. */
  function Total(amounts: seq<int>): int {
    if amounts == [] then 0 else amounts[0] + Total(amounts[1..])
  }

  lemma {:induction false} MSumOfSeq(amounts: seq<int>)
    ensures MSum(multiset(amounts)) == Total(amounts)
  {
    if amounts == [] {
      assert multiset(amounts) == multiset{};
    } else {
      assert amounts == [amounts[0]] + amounts[1..];
      assert multiset(amounts) == multiset(amounts[1..]) + multiset{amounts[0]};
      MSumOfSeq(amounts[1..]);
      MSumAdd(multiset(amounts[1..]), amounts[0]);
    }
  }

  /** `calls` interleaves, on account `id`, one charge-then-use pair per
      amount: `pending` holds the amounts whose charge has not yet run and
      `open` those whose charge has run but whose use has not. Each use comes
      after the charge of the same amount, as in one thread that charges and
      then uses; the pairs of different threads may interleave freely. */
  predicate PairInterleaving(calls: seq<Call>, id: int, open: multiset<int>, pending: multiset<int>)
    decreases |calls|
  {
    if calls == [] then open == multiset{} && pending == multiset{}
    else
      var c := calls[0];
      && c.id == id
      && if c.ChargeCall?
         then c.amount in pending
              && PairInterleaving(calls[1..], id, open + multiset{c.amount}, pending - multiset{c.amount})
         else c.amount in open
              && PairInterleaving(calls[1..], id, open - multiset{c.amount}, pending)
  }

  /** An interleaving holds one call per open amount and two per pending
      amount, all on `id`. */
  lemma {:induction false} PairInterleavingShape(calls: seq<Call>, id: int, open: multiset<int>, pending: multiset<int>)
    requires PairInterleaving(calls, id, open, pending)
    ensures |calls| == |open| + 2 * |pending|
    ensures forall c :: c in calls ==> c.id == id
    decreases |calls|
  {
    if calls != [] {
      var c := calls[0];
      if c.ChargeCall? {
        PairInterleavingShape(calls[1..], id, open + multiset{c.amount}, pending - multiset{c.amount});
      } else {
        PairInterleavingShape(calls[1..], id, open - multiset{c.amount}, pending);
      }
      assert calls == [c] + calls[1..];
    }
  }

  /** The back-to-back order of `Pairs` is one such interleaving. */
  lemma {:induction false} PairsInterleave(id: int, amounts: seq<int>, now: int)
    ensures PairInterleaving(Pairs(id, amounts, now), id, multiset{}, multiset(amounts))
    decreases |amounts|
  {
    if amounts == [] {
      assert multiset(amounts) == multiset{};
    } else {
      var a := amounts[0];
      var calls := Pairs(id, amounts, now);
      var tail := Pairs(id, amounts[1..], now);
      assert calls[1..] == [UseCall(id, a, now)] + tail;
      assert calls[1..][1..] == tail;
      assert amounts == [a] + amounts[1..];
      assert multiset(amounts) - multiset{a} == multiset(amounts[1..]);
      PairsInterleave(id, amounts[1..], now);
      assert multiset{} + multiset{a} - multiset{a} == multiset{};
    }
  }

  /** Two threads whose calls cross: both charges run before either use. */
  lemma CrossedPairsInterleave(id: int, now: int)
    ensures PairInterleaving([ChargeCall(id, 1, now), ChargeCall(id, 2, now), UseCall(id, 2, now), UseCall(id, 1, now)],
                             id, multiset{}, multiset{1, 2})
  {
    var last := [UseCall(id, 1, now)];
    assert last[1..] == [] && multiset{1} - multiset{1} == multiset{};
    assert PairInterleaving(last, id, multiset{1}, multiset{});
    var uses := [UseCall(id, 2, now)] + last;
    assert uses[1..] == last && multiset{1, 2} - multiset{2} == multiset{1};
    assert PairInterleaving(uses, id, multiset{1, 2}, multiset{});
    var tail := [ChargeCall(id, 2, now)] + uses;
    assert tail[1..] == uses && multiset{1} + multiset{2} == multiset{1, 2};
    assert multiset{2} - multiset{2} == multiset{};
    assert PairInterleaving(tail, id, multiset{1}, multiset{2});
    var calls := [ChargeCall(id, 1, now)] + tail;
    assert calls[1..] == tail && multiset{1, 2} - multiset{1} == multiset{2};
    assert multiset{} + multiset{1} == multiset{1};
  }

  /** Every interleaving of charge-then-use pairs succeeds in full when all
      the still-pending charges would fit on top of the open ones: with the
      balance at `b` plus the open amounts, each charge stays under the
      ceiling and each use is covered by its own earlier charge. The balance
      ends at `b`. */
  lemma {:induction false} InterleavedPairsSucceed(t: Tables, calls: seq<Call>, id: int, b: int,
                                                   open: multiset<int>, pending: multiset<int>)
    requires WellKeyed(t.ledger)
    requires PairInterleaving(calls, id, open, pending)
    requires forall a :: a in open ==> a >= 0
    requires forall a :: a in pending ==> a >= 0
    requires ZeroPoint <= b && Balance(t.ledger, id) == b + MSum(open)
    requires b + MSum(open) + MSum(pending) <= MaxPoint
    ensures Run(t, calls).succeeded == calls
    ensures Balance(Run(t, calls).tables.ledger, id) == b
    decreases |calls|
  {
    if calls == [] {
      assert MSum(open) == 0;
    } else {
      var c, rest := calls[0], calls[1..];
      var a := c.amount;
      var o := Apply(t, c);
      ApplyEffect(t, c);
      if c.ChargeCall? {
        MSumRemove(pending, a);
        MSumNonNegative(pending - multiset{a});
        MSumAdd(open, a);
        assert o.result.Ok?;
        InterleavedPairsSucceed(o.tables, rest, id, b, open + multiset{a}, pending - multiset{a});
      } else {
        MSumRemove(open, a);
        MSumNonNegative(open - multiset{a});
        assert o.result.Ok?;
        InterleavedPairsSucceed(o.tables, rest, id, b, open - multiset{a}, pending);
      }
      RunCons(t, c, rest);
      assert [c] + rest == calls;
    }
  }

  /** The end state of concurrent charge-then-use pairs, in any interleaving:
      when the starting balance plus all the amounts fits under the ceiling,
      every call succeeds, the balance is restored and the account gains two
      records per pair. */
  lemma InterleavedPairsEndState(t: Tables, calls: seq<Call>, id: int, amounts: seq<int>)
    requires WellKeyed(t.ledger)
    requires PairInterleaving(calls, id, multiset{}, multiset(amounts))
    requires forall a :: a in amounts ==> a >= 0
    requires ZeroPoint <= Balance(t.ledger, id)
    requires Balance(t.ledger, id) + Total(amounts) <= MaxPoint
    ensures Run(t, calls).succeeded == calls
    ensures Balance(Run(t, calls).tables.ledger, id) == Balance(t.ledger, id)
    ensures |HistoryOf(Run(t, calls).tables.history, id)| == |HistoryOf(t.history, id)| + 2 * |amounts|
  {
    assert MSum(multiset{}) == 0;
    assert forall a :: a in multiset(amounts) ==> a in amounts;
    MSumOfSeq(amounts);
    InterleavedPairsSucceed(t, calls, id, Balance(t.ledger, id), multiset{}, multiset(amounts));
    PairInterleavingShape(calls, id, multiset{}, multiset(amounts));
    RunHistoryCount(t, calls, id);
    CountOnAll(calls, id);
  }

  /** Ten threads, each charging and then using one of 1 through 10, in any
      interleaving on an account at most 9945 with no history: the balance
      is kept and twenty records are written. */
  lemma TenPairsAnyOrder(t: Tables, calls: seq<Call>, id: int)
    requires WellKeyed(t.ledger)
    requires InBounds(Balance(t.ledger, id)) && Balance(t.ledger, id) <= MaxPoint - 55
    requires HistoryOf(t.history, id) == []
    requires PairInterleaving(calls, id, multiset{}, multiset(seq(10, i => i + 1)))
    ensures Balance(Run(t, calls).tables.ledger, id) == Balance(t.ledger, id)
    ensures |HistoryOf(Run(t, calls).tables.history, id)| == 20
  {
    var amounts := seq(10, i => i + 1);
    assert Total(amounts[9..]) == 10;
    assert Total(amounts[8..]) == 19;
    assert Total(amounts[7..]) == 27;
    assert Total(amounts[6..]) == 34;
    assert Total(amounts[5..]) == 40;
    assert Total(amounts[4..]) == 45;
    assert Total(amounts[3..]) == 49;
    assert Total(amounts[2..]) == 52;
    assert Total(amounts[1..]) == 54;
    assert Total(amounts) == 55;
    InterleavedPairsEndState(t, calls, id, amounts);
  }

  /** Ten charges of 1 through 10 on an account with no balance and no
      history end at a balance of 55 with ten records. */
  lemma TenChargesFromZero(t: Tables, id: int, now: int)
    requires WellKeyed(t.ledger)
    requires Balance(t.ledger, id) == 0 && HistoryOf(t.history, id) == []
    ensures var calls := seq(10, i => ChargeCall(id, i + 1, now));
      var final := Run(t, calls).tables;
      Balance(final.ledger, id) == 55 && |HistoryOf(final.history, id)| == 10
  {
    var calls := seq(10, i => ChargeCall(id, i + 1, now));
    assert Net(calls[9..], id) == 10;
    assert Net(calls[8..], id) == 19;
    assert Net(calls[7..], id) == 27;
    assert Net(calls[6..], id) == 34;
    assert Net(calls[5..], id) == 40;
    assert Net(calls[4..], id) == 45;
    assert Net(calls[3..], id) == 49;
    assert Net(calls[2..], id) == 52;
    assert Net(calls[1..], id) == 54;
    assert Net(calls, id) == 55;
    ChargeBatchEndState(t, calls, id);
  }
}
