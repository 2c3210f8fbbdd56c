/**
 * The two storage collaborators of the point service, modelled abstractly:
 * the balance table is a map from user id to its record, and the history
 * table is an append-only sequence of entries.
 */
module Tables {
  import opened PointModel

  /** updateMillis of the default record handed out for an id that was never written. */
  const DefaultMillis: int := 0

  /** selectById: the stored record, or a zero-point default record for an unknown id. */
  function Lookup(table: map<int, UserPoint>, id: int): (u: UserPoint)
    ensures id in table ==> u == table[id]
    ensures id !in table ==> u == UserPoint(id, 0, DefaultMillis)
  {
    if id in table then table[id] else UserPoint(id, 0, DefaultMillis)
  }

  /** selectAllByUserId: the entries of one user, oldest first, in log order. */
  function UserHistory(log: seq<PointHistory>, userId: int): (r: seq<PointHistory>)
    ensures |r| <= |log|
    ensures forall h | h in r :: h.userId == userId && h in log
    ensures forall i | 0 <= i < |log| && log[i].userId == userId :: log[i] in r
  {
    if log == [] then []
    else
      var rest := UserHistory(log[1..], userId);
      if log[0].userId == userId then [log[0]] + rest else rest
  }

  /** Filtering a log distributes over appending to it. */
  lemma {:induction false} UserHistoryAppend(a: seq<PointHistory>, b: seq<PointHistory>, userId: int)
    ensures UserHistory(a + b, userId) == UserHistory(a, userId) + UserHistory(b, userId)
  {
    if a != [] {
      assert (a + b)[1..] == a[1..] + b;
      UserHistoryAppend(a[1..], b, userId);
    } else {
      assert a + b == b;
    }
  }

  /**
   * UserHistory is the order-preserving filter of the log: it is empty for an
   * empty log, and an entry appended to the log is appended to the user's
   * view exactly when it is the user's, once and at the end.
   */
  lemma {:induction false} UserHistorySnoc(log: seq<PointHistory>, h: PointHistory, userId: int)
    ensures UserHistory([], userId) == []
    ensures UserHistory(log + [h], userId) == UserHistory(log, userId) + (if h.userId == userId then [h] else [])
  {
    UserHistoryAppend(log, [h], userId);
    assert [h][1..] == [];
  }

  /** The balance table: overwritten in place by insertOrUpdate. */
  class UserPointTable {
    var table: map<int, UserPoint>

    constructor ()
      ensures table == map[]
    {
      table := map[];
    }

    function SelectById(id: int): UserPoint
      reads this
    {
      Lookup(table, id)
    }

    /** Overwrites the row of id with a fresh record stamped with the table's clock reading now. */
    method InsertOrUpdate(id: int, point: int, now: int) returns (u: UserPoint)
      modifies this
      ensures u == UserPoint(id, point, now)
      ensures table == old(table)[id := u]
    {
      u := UserPoint(id, point, now);
      table := table[id := u];
    }
  }

  /** The history table: entries are only ever appended. */
  class PointHistoryTable {
    var log: seq<PointHistory>

    constructor ()
      ensures log == []
    {
      log := [];
    }

    function SelectAllByUserId(userId: int): seq<PointHistory>
      reads this
    {
      UserHistory(log, userId)
    }

    method Insert(userId: int, amount: int, kind: TransactionType, timestamp: int) returns (h: PointHistory)
      modifies this
      ensures h == PointHistory(userId, amount, kind, timestamp)
      ensures log == old(log) + [h]
    {
      h := PointHistory(userId, amount, kind, timestamp);
      log := log + [h];
    }
  }
}
