/**
 * PointService: reads a user's balance and history, and charges or uses
 * points by reading the balance row, checking it, overwriting it and then
 * appending one history entry.
 *
 * Ledger is the value-level view of the two tables; its Charge, Use and
 * GetUserPoint say what one call does to that view. The class PointService
 * performs the same steps on the table objects and is proved against them.
 */
module Service {
  import opened PointModel
  import opened Tables

  /**
   * isNotExistUser(user, date): meant to recognise the table's default
   * record. Every caller passes user.updateMillis as date, so the timestamp
   * comparison is always true and the test reduces to "point is 0".
   */
  predicate IsNotExistUser(user: UserPoint, date: int): (b: bool)
    ensures b ==> user.point == 0 && user.updateMillis == date
    ensures date == user.updateMillis ==> (b <==> user.point == 0)
  {
    user.point == 0 && user.updateMillis == date
  }

  /** As called by the service, the existence check ignores the timestamp entirely. */
  lemma ExistenceCheckIsZeroPoint(user: UserPoint)
    ensures IsNotExistUser(user, user.updateMillis) <==> user.point == 0
  {
  }

  /** Both tables at one moment. */
  datatype Ledger = Ledger(balances: map<int, UserPoint>, history: seq<PointHistory>)
  {
    /** The record selectById returns. */
    function Select(userId: int): UserPoint
    {
      Lookup(balances, userId)
    }

    function Balance(userId: int): int
    {
      Select(userId).point
    }

    /** getUserPoint: the stored record, or NotFound when its point is 0 (an unknown id included). */
    function GetUserPoint(userId: int): (r: Result<UserPoint>)
      ensures r.Err? <==> Balance(userId) == 0
      ensures r.Err? ==> r.error == NotFound(userId)
      ensures r.Ok? ==> userId in balances && r.value == balances[userId]
    {
      var user := Select(userId);
      if IsNotExistUser(user, user.updateMillis) then Err(NotFound(userId)) else Ok(user)
    }

    /** getPointHistories: every entry of the user, in log order; never an error. */
    function GetPointHistories(userId: int): (r: seq<PointHistory>)
      ensures forall h | h in r :: h.userId == userId && h in history
      ensures forall i | 0 <= i < |history| && history[i].userId == userId :: history[i] in r
    {
      UserHistory(history, userId)
    }

    /**
     * chargeUserPoint: NotFound with nothing written when the point is 0;
     * otherwise the row becomes old point + amount (stamped now), exactly one
     * CHARGE entry of +amount is appended, and no other row changes.
     */
    function Charge(userId: int, amount: int, date: int, now: int): (st: Step)
      ensures st.result.Err? <==> Balance(userId) == 0
      ensures st.result.Err? ==> st.result.error == NotFound(userId) && st.after == this
      ensures st.result.Ok? ==>
        && st.result.value == UserPoint(userId, Balance(userId) + amount, now)
        && st.after.Balance(userId) == Balance(userId) + amount
        && st.after.balances.Keys == balances.Keys
        && st.after.balances[userId] == st.result.value
        && (forall v | v != userId :: st.after.Select(v) == Select(v))
        && st.after.history == history + [PointHistory(userId, amount, CHARGE, date)]
    {
      var user := Select(userId);
      if IsNotExistUser(user, user.updateMillis) then
        Step(Err(NotFound(userId)), this)
      else
        var updated := UserPoint(userId, user.point + amount, now);
        Step(Ok(updated), Ledger(balances[userId := updated], history + [PointHistory(userId, amount, CHARGE, date)]))
    }

    /**
     * useUserPoint: NotFound when the point is 0 (checked first), BadRequest
     * "Insufficient points" when it is below amount, nothing written in
     * either case; otherwise the row becomes old point - amount, never
     * negative, and exactly one USE entry of -amount is appended.
     */
    function Use(userId: int, amount: int, date: int, now: int): (st: Step)
      ensures st.result.Err? <==> Balance(userId) == 0 || Balance(userId) < amount
      ensures Balance(userId) == 0 ==> st.result == Err(NotFound(userId))
      ensures Balance(userId) != 0 && Balance(userId) < amount ==> st.result == Err(BadRequest(InsufficientPoints))
      ensures st.result.Err? ==> st.after == this
      ensures st.result.Ok? ==>
        && st.result.value == UserPoint(userId, Balance(userId) - amount, now)
        && st.result.value.point >= 0
        && st.after.Balance(userId) == Balance(userId) - amount
        && st.after.balances.Keys == balances.Keys
        && st.after.balances[userId] == st.result.value
        && (forall v | v != userId :: st.after.Select(v) == Select(v))
        && st.after.history == history + [PointHistory(userId, -amount, USE, date)]
    {
      var user := Select(userId);
      if IsNotExistUser(user, user.updateMillis) then
        Step(Err(NotFound(userId)), this)
      else if user.point < amount then
        Step(Err(BadRequest(InsufficientPoints)), this)
      else
        var updated := UserPoint(userId, user.point - amount, now);
        Step(Ok(updated), Ledger(balances[userId := updated], history + [PointHistory(userId, -amount, USE, date)]))
    }
  }

  /** A charge extends the charged user's history by its one CHARGE entry, at the end, and no other user's history changes. */
  lemma ChargeExtendsHistories(s: Ledger, userId: int, amount: int, date: int, now: int, v: int)
    ensures var st := s.Charge(userId, amount, date, now);
      st.after.GetPointHistories(v) == s.GetPointHistories(v) +
        (if st.result.Ok? && v == userId then [PointHistory(userId, amount, CHARGE, date)] else [])
  {
    if s.Charge(userId, amount, date, now).result.Ok? {
      UserHistorySnoc(s.history, PointHistory(userId, amount, CHARGE, date), v);
    }
  }

  /** A use extends the user's history by its one USE entry of -amount, at the end, and no other user's history changes. */
  lemma UseExtendsHistories(s: Ledger, userId: int, amount: int, date: int, now: int, v: int)
    ensures var st := s.Use(userId, amount, date, now);
      st.after.GetPointHistories(v) == s.GetPointHistories(v) +
        (if st.result.Ok? && v == userId then [PointHistory(userId, -amount, USE, date)] else [])
  {
    if s.Use(userId, amount, date, now).result.Ok? {
      UserHistorySnoc(s.history, PointHistory(userId, -amount, USE, date), v);
    }
  }

  /** What a charge or use returns, and both tables afterwards. */
  datatype Step = Step(result: Result<UserPoint>, after: Ledger)

  /** The service object, holding its two table collaborators. */
  class PointService {
    const userDb: UserPointTable
    const historyDb: PointHistoryTable

    constructor (userDb: UserPointTable, historyDb: PointHistoryTable)
      ensures this.userDb == userDb && this.historyDb == historyDb
    {
      this.userDb := userDb;
      this.historyDb := historyDb;
    }

    function State(): Ledger
      reads userDb, historyDb
    {
      Ledger(userDb.table, historyDb.log)
    }

    method GetUserPoint(userId: int) returns (r: Result<UserPoint>)
      ensures r == State().GetUserPoint(userId)
    {
      var user := userDb.SelectById(userId);
      if IsNotExistUser(user, user.updateMillis) {
        return Err(NotFound(userId));
      }
      return Ok(user);
    }

    method GetPointHistories(userId: int) returns (r: seq<PointHistory>)
      ensures r == State().GetPointHistories(userId)
    {
      r := historyDb.SelectAllByUserId(userId);
    }

    /** Read, check existence, overwrite the row, then append the CHARGE entry. */
    method ChargeUserPoint(userId: int, amount: int, date: int, now: int) returns (r: Result<UserPoint>)
      modifies userDb, historyDb
      ensures Step(r, State()) == old(State()).Charge(userId, amount, date, now)
    {
      var user := userDb.SelectById(userId);
      if IsNotExistUser(user, user.updateMillis) {
        return Err(NotFound(userId));
      }
      var updatedPoint := user.point + amount;
      var updatedUserPoint := userDb.InsertOrUpdate(userId, updatedPoint, now);
      var _ := historyDb.Insert(userId, amount, CHARGE, date);
      r := Ok(updatedUserPoint);
    }

    /** Read, check existence, check sufficiency, overwrite the row, then append the USE entry. */
    method UseUserPoint(userId: int, amount: int, date: int, now: int) returns (r: Result<UserPoint>)
      modifies userDb, historyDb
      ensures Step(r, State()) == old(State()).Use(userId, amount, date, now)
    {
      var user := userDb.SelectById(userId);
      if IsNotExistUser(user, user.updateMillis) {
        return Err(NotFound(userId));
      }
      if user.point < amount {
        return Err(BadRequest(InsufficientPoints));
      }
      var updatedPoint := user.point - amount;
      var updatedUserPoint := userDb.InsertOrUpdate(userId, updatedPoint, now);
      var _ := historyDb.Insert(userId, -amount, USE, date);
      r := Ok(updatedUserPoint);
    }
  }
}
