/**
 * Sequences of charge and use calls run one after another against the
 * service, each call completing before the next begins, and what holds of
 * the tables after any such run.
 */
module LedgerRuns {
  import opened PointModel
  import opened Tables
  import opened Service

  /** One call into the service: chargeUserPoint or useUserPoint with its arguments. */
  datatype Call =
    | ChargeCall(userId: int, amount: int, date: int, now: int)
    | UseCall(userId: int, amount: int, date: int, now: int)

  function Apply(s: Ledger, c: Call): Step
  {
    match c
    case ChargeCall(u, a, d, n) => s.Charge(u, a, d, n)
    case UseCall(u, a, d, n) => s.Use(u, a, d, n)
  }

  /** The tables after running calls in order; the log only ever grows at its end. */
  function Run(s: Ledger, calls: seq<Call>): (t: Ledger)
    ensures |s.history| <= |t.history| && t.history[..|s.history|] == s.history
    decreases |calls|
  {
    if calls == [] then s else Run(Apply(s, calls[0]).after, calls[1..])
  }

  /** What each call of the run returned, in order. */
  function Results(s: Ledger, calls: seq<Call>): (rs: seq<Result<UserPoint>>)
    ensures |rs| == |calls|
    decreases |calls|
  {
    if calls == [] then []
    else [Apply(s, calls[0]).result] + Results(Apply(s, calls[0]).after, calls[1..])
  }

  /** Sum of the signed amounts of some entries. */
  function Total(hs: seq<PointHistory>): int
  {
    if hs == [] then 0 else hs[0].amount + Total(hs[1..])
  }

  lemma {:induction false} TotalAppend(a: seq<PointHistory>, b: seq<PointHistory>)
    ensures Total(a + b) == Total(a) + Total(b)
  {
    if a != [] {
      assert (a + b)[1..] == a[1..] + b;
      TotalAppend(a[1..], b);
    } else {
      assert a + b == b;
    }
  }

  /**
   * t extends s's log, and user u's balance moved by exactly the sum of the
   * amounts of u's entries appended in between.
   */
  ghost predicate Accounted(s: Ledger, t: Ledger, u: int)
  {
    && |s.history| <= |t.history|
    && t.history[..|s.history|] == s.history
    && t.Balance(u) - s.Balance(u) == Total(UserHistory(t.history[|s.history|..], u))
  }

  /** One call keeps the books for every user. */
  lemma ApplyAccounted(s: Ledger, c: Call, u: int)
    ensures Accounted(s, Apply(s, c).after, u)
  {
    var t := Apply(s, c).after;
    if t != s {
      var h := t.history[|s.history|];
      assert t.history[|s.history|..] == [h];
      assert UserHistory([h], u) == (if h.userId == u then [h] else []);
      assert Total([h]) == h.amount;
    } else {
      assert t.history[|s.history|..] == [];
    }
  }

  lemma AccountedTrans(a: Ledger, b: Ledger, c: Ledger, u: int)
    requires Accounted(a, b, u) && Accounted(b, c, u)
    ensures Accounted(a, c, u)
  {
    var n, m := |a.history|, |b.history|;
    assert c.history[..n] == c.history[..m][..n];
    assert c.history[n..] == b.history[n..] + c.history[m..] by {
      assert c.history == c.history[..m] + c.history[m..];
    }
    UserHistoryAppend(b.history[n..], c.history[m..], u);
    TotalAppend(UserHistory(b.history[n..], u), UserHistory(c.history[m..], u));
  }

  /**
   * Ledger consistency: after any run of charges and uses, each user's
   * balance has moved by exactly the sum of that user's appended entries.
   */
  lemma {:induction false} RunAccounted(s: Ledger, calls: seq<Call>, u: int)
    ensures Accounted(s, Run(s, calls), u)
    decreases |calls|
  {
    if calls == [] {
      assert s.history[|s.history|..] == [];
    } else {
      var s1 := Apply(s, calls[0]).after;
      ApplyAccounted(s, calls[0], u);
      RunAccounted(s1, calls[1..], u);
      AccountedTrans(s, s1, Run(s, calls), u);
    }
  }

  /** A user that no call names keeps its row and its entries exactly. */
  lemma {:induction false} RunLeavesOthersAlone(s: Ledger, calls: seq<Call>, v: int)
    requires forall i | 0 <= i < |calls| :: calls[i].userId != v
    ensures var t := Run(s, calls);
      && (v in t.balances <==> v in s.balances)
      && (v in s.balances ==> t.balances[v] == s.balances[v])
      && UserHistory(t.history, v) == UserHistory(s.history, v)
    decreases |calls|
  {
    if calls != [] {
      var st := Apply(s, calls[0]);
      if st.result.Ok? {
        var h := st.after.history[|s.history|];
        assert st.after.history == s.history + [h];
        UserHistoryAppend(s.history, [h], v);
        assert st.after.Select(v) == s.Select(v);
      }
      RunLeavesOthersAlone(st.after, calls[1..], v);
    }
  }

  /** Every stored balance is at least 0. */
  ghost predicate NonNegative(s: Ledger)
  {
    forall v | v in s.balances :: s.balances[v].point >= 0
  }

  function Amount(c: Call): int
  {
    match c
    case ChargeCall(_, a, _, _) => a
    case UseCall(_, a, _, _) => a
  }

  /** Uses never drive a balance below 0, and charges of non-negative amounts cannot either. */
  lemma {:induction false} RunKeepsNonNegative(s: Ledger, calls: seq<Call>)
    requires NonNegative(s)
    requires forall i | 0 <= i < |calls| && calls[i].ChargeCall? :: Amount(calls[i]) >= 0
    ensures NonNegative(Run(s, calls))
    decreases |calls|
  {
    if calls != [] {
      var st := Apply(s, calls[0]);
      if st.result.Ok? {
        var u := calls[0].userId;
        forall v | v in st.after.balances ensures st.after.balances[v].point >= 0 {
          if v != u {
            assert st.after.Select(v) == s.Select(v);
          }
        }
      }
      RunKeepsNonNegative(st.after, calls[1..]);
    }
  }

  /** Three charges of 50, 30 and 20 on a balance of 100 return 150, 180 and 200, and 200 is read back. */
  lemma ThreeChargesScenario(t0: int, d1: int, d2: int, d3: int, n1: int, n2: int, n3: int)
    ensures var s := Ledger(map[1 := UserPoint(1, 100, t0)], []);
      var calls := [ChargeCall(1, 50, d1, n1), ChargeCall(1, 30, d2, n2), ChargeCall(1, 20, d3, n3)];
      && Results(s, calls) == [Ok(UserPoint(1, 150, n1)), Ok(UserPoint(1, 180, n2)), Ok(UserPoint(1, 200, n3))]
      && Run(s, calls).GetUserPoint(1) == Ok(UserPoint(1, 200, n3))
      && Total(UserHistory(Run(s, calls).history, 1)) == 100
  {
    var s := Ledger(map[1 := UserPoint(1, 100, t0)], []);
    var calls := [ChargeCall(1, 50, d1, n1), ChargeCall(1, 30, d2, n2), ChargeCall(1, 20, d3, n3)];
    var s1 := Apply(s, calls[0]).after;
    var s2 := Apply(s1, calls[1]).after;
    var s3 := Apply(s2, calls[2]).after;
    var rest1, rest2 := calls[1..], calls[1..][1..];
    assert rest1[0] == calls[1] && rest2[0] == calls[2] && rest2[1..] == [];
    assert Run(s2, rest2) == Run(s3, []) == s3;
    assert Run(s, calls) == Run(s1, rest1) == Run(s2, rest2);
    assert Results(s2, rest2) == [Apply(s2, calls[2]).result] + [];
    assert Results(s1, rest1) == [Apply(s1, calls[1]).result] + Results(s2, rest2);
    assert Results(s, calls) == [Ok(UserPoint(1, 150, n1))] + ([Ok(UserPoint(1, 180, n2))] + ([Ok(UserPoint(1, 200, n3))] + []));
    RunAccounted(s, calls, 1);
    assert s3.history[|s.history|..] == s3.history;
  }

  /**
   * Uses of 50, 100 and 150 on a balance of 300 return 250, 150 and 0; the
   * drained user is then reported NotFound rather than read back as 0.
   */
  lemma DrainScenario(t0: int, d1: int, d2: int, d3: int, n1: int, n2: int, n3: int)
    ensures var s := Ledger(map[1 := UserPoint(1, 300, t0)], []);
      var calls := [UseCall(1, 50, d1, n1), UseCall(1, 100, d2, n2), UseCall(1, 150, d3, n3)];
      && Results(s, calls) == [Ok(UserPoint(1, 250, n1)), Ok(UserPoint(1, 150, n2)), Ok(UserPoint(1, 0, n3))]
      && Run(s, calls).GetUserPoint(1) == Err(NotFound(1))
  {
    var s := Ledger(map[1 := UserPoint(1, 300, t0)], []);
    var calls := [UseCall(1, 50, d1, n1), UseCall(1, 100, d2, n2), UseCall(1, 150, d3, n3)];
    var s1 := Apply(s, calls[0]).after;
    var s2 := Apply(s1, calls[1]).after;
    var s3 := Apply(s2, calls[2]).after;
    var rest1, rest2 := calls[1..], calls[1..][1..];
    assert rest1[0] == calls[1] && rest2[0] == calls[2] && rest2[1..] == [];
    assert Run(s2, rest2) == Run(s3, []) == s3;
    assert Run(s, calls) == Run(s1, rest1) == Run(s2, rest2);
    assert Results(s2, rest2) == [Apply(s2, calls[2]).result] + [];
    assert Results(s1, rest1) == [Apply(s1, calls[1]).result] + Results(s2, rest2);
    assert Results(s, calls) == [Ok(UserPoint(1, 250, n1))] + ([Ok(UserPoint(1, 150, n2))] + ([Ok(UserPoint(1, 0, n3))] + []));
  }

  /** Uses of 70 then 50 on a balance of 100: the first succeeds, the second is refused, 30 remains. */
  lemma OverdraftScenario(t0: int, d1: int, d2: int, n1: int, n2: int)
    ensures var s := Ledger(map[1 := UserPoint(1, 100, t0)], []);
      var calls := [UseCall(1, 70, d1, n1), UseCall(1, 50, d2, n2)];
      && Results(s, calls) == [Ok(UserPoint(1, 30, n1)), Err(BadRequest(InsufficientPoints))]
      && Run(s, calls).Balance(1) == 30
      && |Run(s, calls).history| == 1
  {
    var s := Ledger(map[1 := UserPoint(1, 100, t0)], []);
    var calls := [UseCall(1, 70, d1, n1), UseCall(1, 50, d2, n2)];
    var s1 := Apply(s, calls[0]).after;
    var s2 := Apply(s1, calls[1]).after;
    var rest1 := calls[1..];
    assert rest1[0] == calls[1] && rest1[1..] == [];
    assert Run(s1, rest1) == Run(s2, []) == s2;
    assert Results(s1, rest1) == [Apply(s1, calls[1]).result] + [];
    assert Results(s, calls) == [Ok(UserPoint(1, 30, n1))] + ([Err(BadRequest(InsufficientPoints))] + []);
  }

  /** A drained user can never be charged again: the charge is NotFound and writes nothing. */
  lemma DrainedUserCannotBeCharged(s: Ledger, u: int, amount: int, date: int, now: int)
    requires u in s.balances && s.balances[u].point == 0
    ensures s.Charge(u, amount, date, now) == Step(Err(NotFound(u)), s)
  {
  }
}
