/**
  The balance rule of one account: the immutable `UserPoint` record, its two
  bounds, and the `charge` / `use` validators that either compute the new
  balance or fail with a domain error carrying (id, balance before, amount).
 */
module Points {

  /** Floor and ceiling of an account balance. */
  const ZeroPoint: int := 0
  const MaxPoint: int := 10000

  /** One account's balance record: account id, balance, time of last update. */
  datatype UserPoint = UserPoint(id: int, point: int, updateMillis: int)

  /** The two domain failures; each carries the account id, the balance
      before the operation and the attempted amount. */
  datatype PointError =
    | ExceededBalance(id: int, point: int, amount: int)
    | InsufficientBalance(id: int, point: int, amount: int)

  /** Either a value or one of the domain failures. */
  datatype Result<T> = Ok(value: T) | Err(error: PointError)

  predicate InBounds(point: int) {
    ZeroPoint <= point <= MaxPoint
  }

  /** A zero-balance record for `id`, stamped with the clock reading `now`. */
  function Empty(id: int, now: int): (u: UserPoint)
    ensures u.id == id && u.point == ZeroPoint && u.updateMillis == now
    ensures InBounds(u.point)
  {
    UserPoint(id, 0, now)
  }

  /** The balance after crediting `amount`, or `ExceededBalance` when that
      balance would pass the ceiling. The record itself is not changed. */
  function Charge(u: UserPoint, amount: int): (r: Result<int>)
    ensures r.Ok? <==> u.point + amount <= MaxPoint
    ensures r.Ok? ==> r.value - amount == u.point && r.value <= MaxPoint
    ensures r.Err? ==> r.error == ExceededBalance(u.id, u.point, amount)
  {
    var chargedPoint := u.point + amount;
    if chargedPoint > MaxPoint then Err(ExceededBalance(u.id, u.point, amount))
    else Ok(chargedPoint)
  }

  /** The balance after debiting `amount`, or `InsufficientBalance` when that
      balance would fall below the floor. The record itself is not changed. */
  function Use(u: UserPoint, amount: int): (r: Result<int>)
    ensures r.Ok? <==> u.point - amount >= ZeroPoint
    ensures r.Ok? ==> r.value + amount == u.point && r.value >= ZeroPoint
    ensures r.Err? ==> r.error == InsufficientBalance(u.id, u.point, amount)
  {
    var leftPoint := u.point - amount;
    if leftPoint < ZeroPoint then Err(InsufficientBalance(u.id, u.point, amount))
    else Ok(leftPoint)
  }

  /** With a non-negative amount, a successful charge or use keeps an
      in-bounds balance in bounds. */
  lemma ChargeUseKeepBounds(u: UserPoint, amount: int)
    requires amount >= 0 && InBounds(u.point)
    ensures Charge(u, amount).Ok? ==> InBounds(Charge(u, amount).value)
    ensures Use(u, amount).Ok? ==> InBounds(Use(u, amount).value)
  {
  }

  /** Neither rule checks the sign of the amount: a negative charge acts as
      a use and can take the balance below zero, and a negative use can take
      it above the ceiling. */
  lemma NegativeAmountsLeaveBounds()
    ensures Charge(UserPoint(1, 50, 0), -100) == Ok(-50)
    ensures Use(UserPoint(1, 9950, 0), -100) == Ok(10050)
  {
  }

  /** Using back what was just charged succeeds and restores the balance. */
  lemma ChargeThenUse(u: UserPoint, amount: int, now: int)
    requires Charge(u, amount).Ok?
    requires u.point >= ZeroPoint
    ensures Use(UserPoint(u.id, Charge(u, amount).value, now), amount) == Ok(u.point)
  {
  }
}
