/**
 * PointController: the four request handlers. Each parses the :id path
 * segment, rejects a NaN or non-positive id, for charge and use also rejects
 * a non-positive amount, and otherwise hands the same arguments to the
 * service and returns what it returns. Requests are modelled after parsing,
 * and the service by its Ledger specification.
 */
module PointController {
  import opened PointModel
  import opened Service
  import opened LedgerRuns

  /** What Number.parseInt made of the :id path segment. */
  datatype ParsedId = NaN | Num(n: int)

  predicate ValidUserId(id: ParsedId)
  {
    id.Num? && id.n > 0
  }

  /** The userId guard `isNaN(userId) || userId <= 0` shared by all four handlers. */
  function CheckUserId(id: ParsedId): (r: Result<int>)
    ensures r.Ok? <==> ValidUserId(id)
    ensures r.Ok? ==> r.value == id.n
    ensures r.Err? ==> r.error == BadRequest(InvalidUserId)
  {
    if id.NaN? || id.n <= 0 then Err(BadRequest(InvalidUserId)) else Ok(id.n)
  }

  /**
   * The guards of charge and use, in the order the handlers run them: the
   * userId first, so a request with both wrong reports the userId, then
   * `amount <= 0`.
   */
  function CheckRequest(id: ParsedId, amount: int): (r: Result<int>)
    ensures r.Ok? <==> ValidUserId(id) && amount > 0
    ensures r.Ok? ==> r.value == id.n
    ensures !ValidUserId(id) ==> r == Err(BadRequest(InvalidUserId))
    ensures ValidUserId(id) && amount <= 0 ==> r == Err(BadRequest(InvalidAmount))
  {
    match CheckUserId(id)
    case Err(e) => Err(e)
    case Ok(userId) => if amount <= 0 then Err(BadRequest(InvalidAmount)) else Ok(userId)
  }

  /** GET /point/:id */
  function Point(s: Ledger, id: ParsedId): (r: Result<UserPoint>)
    ensures !ValidUserId(id) ==> r == Err(BadRequest(InvalidUserId))
    ensures ValidUserId(id) ==> r == s.GetUserPoint(id.n)
  {
    match CheckUserId(id)
    case Err(e) => Err(e)
    case Ok(userId) => s.GetUserPoint(userId)
  }

  /** GET /point/:id/histories */
  function History(s: Ledger, id: ParsedId): (r: Result<seq<PointHistory>>)
    ensures !ValidUserId(id) ==> r == Err(BadRequest(InvalidUserId))
    ensures ValidUserId(id) ==> r == Ok(s.GetPointHistories(id.n))
  {
    match CheckUserId(id)
    case Err(e) => Err(e)
    case Ok(userId) => Ok(s.GetPointHistories(userId))
  }

  /** PATCH /point/:id/charge: a rejected request never reaches the service, so the tables stay as they were. */
  function Charge(s: Ledger, id: ParsedId, amount: int, date: int, now: int): (st: Step)
    ensures !ValidUserId(id) ==> st == Step(Err(BadRequest(InvalidUserId)), s)
    ensures ValidUserId(id) && amount <= 0 ==> st == Step(Err(BadRequest(InvalidAmount)), s)
    ensures ValidUserId(id) && amount > 0 ==> st == s.Charge(id.n, amount, date, now)
  {
    match CheckRequest(id, amount)
    case Err(e) => Step(Err(e), s)
    case Ok(userId) => s.Charge(userId, amount, date, now)
  }

  /** PATCH /point/:id/use: the same guards, in the same order, in front of the service's use. */
  function Use(s: Ledger, id: ParsedId, amount: int, date: int, now: int): (st: Step)
    ensures !ValidUserId(id) ==> st == Step(Err(BadRequest(InvalidUserId)), s)
    ensures ValidUserId(id) && amount <= 0 ==> st == Step(Err(BadRequest(InvalidAmount)), s)
    ensures ValidUserId(id) && amount > 0 ==> st == s.Use(id.n, amount, date, now)
  {
    match CheckRequest(id, amount)
    case Err(e) => Step(Err(e), s)
    case Ok(userId) => s.Use(userId, amount, date, now)
  }

  /** A charge the controller accepts never lowers any balance, and raises the charged one. */
  lemma ChargeNeverDecreases(s: Ledger, id: ParsedId, amount: int, date: int, now: int, v: int)
    ensures Charge(s, id, amount, date, now).after.Balance(v) >= s.Balance(v)
    ensures Charge(s, id, amount, date, now).result.Ok? ==>
      Charge(s, id, amount, date, now).after.Balance(id.n) > s.Balance(id.n)
  {
    var st := Charge(s, id, amount, date, now);
    if st.result.Ok? && v != id.n {
      assert st.after.Select(v) == s.Select(v);
    }
  }

  /** A charge or use request as it arrives at the controller. */
  datatype Request =
    | ChargeRequest(id: ParsedId, amount: int, date: int, now: int)
    | UseRequest(id: ParsedId, amount: int, date: int, now: int)

  function Handle(s: Ledger, q: Request): Step
  {
    match q
    case ChargeRequest(id, a, d, n) => Charge(s, id, a, d, n)
    case UseRequest(id, a, d, n) => Use(s, id, a, d, n)
  }

  /** The tables after the controller has handled reqs in order. */
  function Serve(s: Ledger, reqs: seq<Request>): Ledger
    decreases |reqs|
  {
    if reqs == [] then s else Serve(Handle(s, reqs[0]).after, reqs[1..])
  }

  predicate Accepted(q: Request)
  {
    ValidUserId(q.id) && q.amount > 0
  }

  /** The service calls that the accepted requests among reqs turn into, in order. */
  function Forwarded(reqs: seq<Request>): (calls: seq<Call>)
    ensures |calls| <= |reqs|
    ensures forall i | 0 <= i < |calls| :: calls[i].userId > 0 && Amount(calls[i]) > 0
    decreases |reqs|
  {
    if reqs == [] then []
    else
      var q := reqs[0];
      var rest := Forwarded(reqs[1..]);
      if !Accepted(q) then rest
      else if q.ChargeRequest? then [ChargeCall(q.id.n, q.amount, q.date, q.now)] + rest
      else [UseCall(q.id.n, q.amount, q.date, q.now)] + rest
  }

  /** Rejected requests never reach the service: serving reqs is running exactly the forwarded calls. */
  lemma {:induction false} ServeIsRunOfForwarded(s: Ledger, reqs: seq<Request>)
    ensures Serve(s, reqs) == Run(s, Forwarded(reqs))
    decreases |reqs|
  {
    if reqs != [] {
      var q := reqs[0];
      var s1 := Handle(s, q).after;
      ServeIsRunOfForwarded(s1, reqs[1..]);
      if Accepted(q) {
        var calls := Forwarded(reqs);
        assert calls[1..] == Forwarded(reqs[1..]);
        assert Apply(s, calls[0]).after == s1;
      }
    }
  }

  /** Through the controller, every stored balance stays non-negative however requests arrive. */
  lemma ServeKeepsNonNegative(s: Ledger, reqs: seq<Request>)
    requires NonNegative(s)
    ensures NonNegative(Serve(s, reqs))
  {
    ServeIsRunOfForwarded(s, reqs);
    RunKeepsNonNegative(s, Forwarded(reqs));
  }

  /** Through the controller, each user's balance moves by exactly the sum of its appended entries. */
  lemma ServeAccounted(s: Ledger, reqs: seq<Request>, u: int)
    ensures Accounted(s, Serve(s, reqs), u)
  {
    ServeIsRunOfForwarded(s, reqs);
    RunAccounted(s, Forwarded(reqs), u);
  }
}
