/** The Postgres store used by the HTTP server (internal/store/postgres):
    users, the global idempotency table, the payment log and the payouts.
    Each SQL statement becomes one update of the table it touches;
    `NOW()` is the parameter `now`. */
module PostgresStore {
  import opened Wrappers

  type IdemKey = (string, string)

  /** One row of the payment table; the table is a log, in insertion order. */
  datatype PaymentRow = PaymentRow(userId: int, orderNo: string, payToken: string, amount: int,
                                   status: string, rawJson: Bytes)

  /** The columns the server supplies for a new payout. */
  datatype NewPayout = NewPayout(userId: int, promotionCode: string, promotionKey: string,
                                 amountPoints: int, status: string, rawJson: Bytes)

  /** A stored payout, with the columns the database fills in. */
  datatype PayoutRow = PayoutRow(id: nat, userId: int, promotionCode: string, promotionKey: string,
                                 amountPoints: int, status: string, rawJson: Bytes,
                                 updatedAt: int, createdAt: int)

  /** Every user has an id below the next one to hand out, and no two users
      share an id. */
  predicate UsersDistinct(users: map<string, int>, nextUserId: int) {
    && 0 < nextUserId
    && (forall k :: k in users ==> 0 < users[k] < nextUserId)
    && (forall k, k' :: k in users && k' in users && k != k' ==> users[k] != users[k'])
  }

  /** The tables the server's handlers write, as one value. */
  datatype DbState = DbState(idem: map<IdemKey, Bytes>, payments: seq<PaymentRow>,
                             payouts: seq<PayoutRow>, nextPayoutId: nat)

  /** The idempotency table after `INSERT ... ON CONFLICT DO NOTHING`. */
  function PutIdem(idem: map<IdemKey, Bytes>, k: IdemKey, resp: Bytes): (r: map<IdemKey, Bytes>)
    ensures k in r && r[k] == (if k in idem then idem[k] else resp)
    ensures r.Keys == idem.Keys + {k}
    ensures forall k' :: k' in idem ==> r[k'] == idem[k']
  {
    if k in idem then idem else idem[k := resp]
  }

  /** First write wins: a second put for the same key changes nothing, and
      the stored bytes are those of the first. */
  lemma PutIdemFirstWriteWins(idem: map<IdemKey, Bytes>, k: IdemKey, a: Bytes, b: Bytes)
    ensures PutIdem(PutIdem(idem, k, a), k, b) == PutIdem(idem, k, a)
    ensures k !in idem ==> PutIdem(PutIdem(idem, k, a), k, b)[k] == a
  {
  }

  /** The payout table after an insert: the new row goes at the end with a
      fresh id and both timestamps set to now. */
  function AppendPayout(payouts: seq<PayoutRow>, id: nat, po: NewPayout, now: int): (r: seq<PayoutRow>)
    ensures |r| == |payouts| + 1 && r[..|payouts|] == payouts
    ensures var row := r[|payouts|];
      && row.id == id && row.userId == po.userId && row.promotionCode == po.promotionCode
      && row.promotionKey == po.promotionKey && row.amountPoints == po.amountPoints
      && row.status == po.status && row.rawJson == po.rawJson
      && row.updatedAt == now && row.createdAt == now
  {
    payouts + [PayoutRow(id, po.userId, po.promotionCode, po.promotionKey, po.amountPoints,
                         po.status, po.rawJson, now, now)]
  }

  /** `UPDATE payout SET status, raw_json, updated_at WHERE promotion_key`:
      every row with that key is overwritten whatever its status; every other
      row is left alone. */
  function SetPayoutStatus(payouts: seq<PayoutRow>, promotionKey: string, status: string,
                           raw: Bytes, now: int): (r: seq<PayoutRow>)
    ensures |r| == |payouts|
    ensures forall i :: 0 <= i < |r| && payouts[i].promotionKey != promotionKey ==> r[i] == payouts[i]
    ensures forall i :: 0 <= i < |r| && payouts[i].promotionKey == promotionKey ==>
      r[i] == payouts[i].(status := status, rawJson := raw, updatedAt := now)
    decreases |payouts|
  {
    if |payouts| == 0 then []
    else
      var p := payouts[0];
      var head := if p.promotionKey == promotionKey then p.(status := status, rawJson := raw, updatedAt := now) else p;
      [head] + SetPayoutStatus(payouts[1..], promotionKey, status, raw, now)
  }

  /** A status update with the same arguments a second time changes nothing
      more. */
  lemma SetPayoutStatusIdempotent(payouts: seq<PayoutRow>, key: string, status: string, raw: Bytes, now: int)
    ensures SetPayoutStatus(SetPayoutStatus(payouts, key, status, raw, now), key, status, raw, now)
            == SetPayoutStatus(payouts, key, status, raw, now)
  {
    var once := SetPayoutStatus(payouts, key, status, raw, now);
    var twice := SetPayoutStatus(once, key, status, raw, now);
    assert forall i :: 0 <= i < |once| ==> once[i].promotionKey == payouts[i].promotionKey;
    assert forall i :: 0 <= i < |once| ==> twice[i] == once[i];
  }

  /** A terminal status is not protected: a payout already marked SUCCESS is
      set back to PENDING by a later update for its key. */
  lemma SetPayoutStatusOverwritesTerminal(p: PayoutRow, raw: Bytes, now: int)
    requires p.status == "SUCCESS"
    ensures SetPayoutStatus([p], p.promotionKey, "PENDING", raw, now)[0].status == "PENDING"
  {
  }

  /** The statuses the pending-payout query selects. */
  predicate IsPending(p: PayoutRow) {
    p.status == "REQUESTED" || p.status == "PENDING"
  }

  /** `WHERE status IN ('REQUESTED','PENDING')`, keeping table order. */
  function FilterPending(s: seq<PayoutRow>): (r: seq<PayoutRow>)
    ensures forall i :: 0 <= i < |r| ==> IsPending(r[i])
    ensures forall x :: x in s && IsPending(x) ==> x in r
    ensures multiset(r) <= multiset(s)
    ensures forall x :: multiset(r)[x] == (if IsPending(x) then multiset(s)[x] else 0)
    decreases |s|
  {
    if |s| == 0 then []
    else
      assert s == [s[0]] + s[1..];
      var rest := FilterPending(s[1..]);
      if IsPending(s[0]) then [s[0]] + rest else rest
  }

  predicate SortedByUpdate(s: seq<PayoutRow>) {
    forall i, j :: 0 <= i < j < |s| ==> s[i].updatedAt <= s[j].updatedAt
  }

  /** Inserts a row before the first row updated no earlier than it, so
      that a row inserted ahead of rows with the same time stays ahead. */
  function InsertByUpdate(x: PayoutRow, s: seq<PayoutRow>): (r: seq<PayoutRow>)
    requires SortedByUpdate(s)
    ensures |r| == |s| + 1
    ensures r[0] == (if |s| == 0 || x.updatedAt <= s[0].updatedAt then x else s[0])
    ensures SortedByUpdate(r)
    ensures multiset(r) == multiset(s) + multiset{x}
    decreases |s|
  {
    if |s| == 0 then [x]
    else if x.updatedAt <= s[0].updatedAt then
      ConsSorted(x, s);
      [x] + s
    else
      assert s == [s[0]] + s[1..];
      var rest := InsertByUpdate(x, s[1..]);
      assert multiset([s[0]] + rest) == multiset{s[0]} + multiset(rest);
      ConsSorted(s[0], rest);
      [s[0]] + rest
  }

  /** A row no later than the head of a sorted table may go in front of it. */
  lemma ConsSorted(a: PayoutRow, rest: seq<PayoutRow>)
    requires SortedByUpdate(rest) && (rest == [] || a.updatedAt <= rest[0].updatedAt)
    ensures SortedByUpdate([a] + rest)
  {
    assert forall j :: 0 <= j < |rest| ==> rest[0].updatedAt <= rest[j].updatedAt;
  }

  /** `ORDER BY updated_at ASC`, as a stable insertion sort: rows with equal
      times keep table order (the database leaves their order open). */
  function SortByUpdate(s: seq<PayoutRow>): (r: seq<PayoutRow>)
    ensures SortedByUpdate(r)
    ensures multiset(r) == multiset(s)
    decreases |s|
  {
    if |s| == 0 then []
    else
      assert s == [s[0]] + s[1..];
      InsertByUpdate(s[0], SortByUpdate(s[1..]))
  }

  /** A table already in update order, rows with equal times included,
      comes out of the sort as it went in: ties keep table order. */
  lemma {:induction false} SortByUpdateOfSorted(s: seq<PayoutRow>)
    requires SortedByUpdate(s)
    ensures SortByUpdate(s) == s
    decreases |s|
  {
    if |s| > 0 {
      assert SortedByUpdate(s[1..]);
      SortByUpdateOfSorted(s[1..]);
      assert s == [s[0]] + s[1..];
    }
  }

  /** The rows the pending-payout query returns for a non-negative limit. */
  function PendingQuery(payouts: seq<PayoutRow>, limit: nat): seq<PayoutRow> {
    var sorted := SortByUpdate(FilterPending(payouts));
    if limit < |sorted| then sorted[..limit] else sorted
  }

  /** A prefix of a sorted table is sorted, and every row after it was
      updated no earlier than any row in it. */
  lemma SortedPrefix(s: seq<PayoutRow>, n: nat)
    requires SortedByUpdate(s) && n <= |s|
    ensures SortedByUpdate(s[..n])
    ensures multiset(s[..n]) <= multiset(s)
    ensures forall x, i :: x in multiset(s) - multiset(s[..n]) && 0 <= i < n ==> s[i].updatedAt <= x.updatedAt
  {
    assert s == s[..n] + s[n..];
    assert multiset(s) == multiset(s[..n]) + multiset(s[n..]);
    forall x, i | x in multiset(s) - multiset(s[..n]) && 0 <= i < n
      ensures s[i].updatedAt <= x.updatedAt
    {
      assert x in s[n..];
      var j :| 0 <= j < |s[n..]| && s[n..][j] == x;
      assert s[n + j] == x;
    }
  }

  /** The query returns only REQUESTED or PENDING rows of the table. */
  lemma PendingQuerySelects(payouts: seq<PayoutRow>, limit: nat)
    ensures var r := PendingQuery(payouts, limit);
      && (forall i :: 0 <= i < |r| ==> IsPending(r[i]))
      && multiset(r) <= multiset(payouts)
  {
    var f := FilterPending(payouts);
    var sorted := SortByUpdate(f);
    var r := PendingQuery(payouts, limit);
    SortedPrefix(sorted, |r|);
    assert r == sorted[..|r|];
    PendingSubset(f, r);
  }

  /** Rows drawn from a table of pending rows are pending. */
  lemma PendingSubset(f: seq<PayoutRow>, r: seq<PayoutRow>)
    requires forall i :: 0 <= i < |f| ==> IsPending(f[i])
    requires multiset(r) <= multiset(f)
    ensures forall i :: 0 <= i < |r| ==> IsPending(r[i])
  {
    forall i | 0 <= i < |r| ensures IsPending(r[i]) {
      assert r[i] in multiset(r);
      assert r[i] in f;
    }
  }

  /** The rows come oldest update first, and no pending row the query
      leaves out was updated earlier than one it returns. */
  lemma PendingQueryOrder(payouts: seq<PayoutRow>, limit: nat)
    ensures var r := PendingQuery(payouts, limit);
      && SortedByUpdate(r)
      && (forall x, i :: x in multiset(FilterPending(payouts)) - multiset(r) && 0 <= i < |r| ==>
            r[i].updatedAt <= x.updatedAt)
  {
    var sorted := SortByUpdate(FilterPending(payouts));
    var r := PendingQuery(payouts, limit);
    SortedPrefix(sorted, |r|);
    assert r == sorted[..|r|];
  }

  /** As many rows as there are pending, up to the limit. */
  lemma PendingQueryCount(payouts: seq<PayoutRow>, limit: nat)
    ensures |PendingQuery(payouts, limit)| ==
      (if limit < |FilterPending(payouts)| then limit else |FilterPending(payouts)|)
  {
    var f := FilterPending(payouts);
    var sorted := SortByUpdate(f);
    assert |multiset(sorted)| == |multiset(f)|;
  }

  /** The server's database handle. */
  class Postgres {
    var users: map<string, int>
    var nextUserId: int
    var idem: map<IdemKey, Bytes>
    var payments: seq<PaymentRow>
    var payouts: seq<PayoutRow>
    var nextPayoutId: nat

    predicate Valid()
      reads this`users, this`nextUserId
    {
      UsersDistinct(users, nextUserId)
    }

    function State(): DbState
      reads this`idem, this`payments, this`payouts, this`nextPayoutId
    {
      DbState(idem, payments, payouts, nextPayoutId)
    }

    constructor()
      ensures Valid()
      ensures users == map[] && idem == map[] && payments == [] && payouts == []
    {
      users := map[];
      nextUserId := 1;
      idem := map[];
      payments := [];
      payouts := [];
      nextPayoutId := 1;
    }

    /** `INSERT ... ON CONFLICT (toss_user_key) DO UPDATE ... RETURNING id`:
        a known key gets its existing id back, a new key the next id. */
    method UpsertUser(tossUserKey: string) returns (id: int)
      requires Valid()
      modifies this`users, this`nextUserId
      ensures Valid()
      ensures tossUserKey in old(users) ==> id == old(users)[tossUserKey] && users == old(users)
                                            && nextUserId == old(nextUserId)
      ensures tossUserKey !in old(users) ==> id == old(nextUserId) && users == old(users)[tossUserKey := id]
                                             && nextUserId == old(nextUserId) + 1
      ensures forall k :: k in old(users) ==> k in users && users[k] == old(users)[k]
    {
      if tossUserKey in users {
        id := users[tossUserKey];
      } else {
        id := nextUserId;
        users := users[tossUserKey := id];
        nextUserId := nextUserId + 1;
      }
    }

    /** A row exists for (scope, key) or not: expiry plays no part. */
    method GetIdempotency(scope: string, key: string) returns (found: bool, resp: Bytes)
      ensures found <==> (scope, key) in idem
      ensures found ==> resp == idem[(scope, key)]
      ensures !found ==> resp == []
    {
      if (scope, key) in idem {
        found, resp := true, idem[(scope, key)];
      } else {
        found, resp := false, [];
      }
    }

    /** `ON CONFLICT (scope, idem_key) DO NOTHING`: the first write wins. */
    method PutIdempotency(scope: string, key: string, resp: Bytes)
      modifies this`idem
      ensures idem == PutIdem(old(idem), (scope, key), resp)
    {
      if (scope, key) !in idem {
        idem := idem[(scope, key) := resp];
      }
    }

    /** Appends one row to the payment log. */
    method InsertPayment(pay: PaymentRow)
      modifies this`payments
      ensures payments == old(payments) + [pay]
    {
      payments := payments + [pay];
    }

    /** Appends one payout with the next id, stamped with now. */
    method InsertPayout(po: NewPayout, now: int)
      modifies this`payouts, this`nextPayoutId
      ensures payouts == AppendPayout(old(payouts), old(nextPayoutId), po, now)
      ensures nextPayoutId == old(nextPayoutId) + 1
    {
      payouts := AppendPayout(payouts, nextPayoutId, po, now);
      nextPayoutId := nextPayoutId + 1;
    }

    method UpdatePayoutStatus(promotionKey: string, status: string, raw: Bytes, now: int)
      modifies this`payouts
      ensures payouts == SetPayoutStatus(old(payouts), promotionKey, status, raw, now)
    {
      payouts := SetPayoutStatus(payouts, promotionKey, status, raw, now);
    }

    /** Runs the pending-payout query and scans its rows one by one. The
        selection, order and limit are the query's; the scan loop only
        copies the rows it returns. A negative limit is refused by the
        database. */
    method ListPendingPayouts(limit: int) returns (r: Result<seq<PayoutRow>, string>)
      ensures limit < 0 <==> r.Err?
      ensures r.Ok? ==> r.value == PendingQuery(payouts, limit)
      ensures r.Ok? ==> && (forall i :: 0 <= i < |r.value| ==> IsPending(r.value[i]))
                        && SortedByUpdate(r.value)
                        && multiset(r.value) <= multiset(payouts)
                        && |r.value| <= limit
    {
      if limit < 0 {
        return Err("LIMIT must not be negative");
      }
      var rows := PendingQuery(payouts, limit);
      var out: seq<PayoutRow> := [];
      var i := 0;
      while i < |rows|
        invariant 0 <= i <= |rows|
        invariant out == rows[..i]
      {
        out := out + [rows[i]];
        i := i + 1;
      }
      assert out == rows;
      PendingQuerySelects(payouts, limit);
      PendingQueryOrder(payouts, limit);
      r := Ok(out);
    }
  }

  /** A new user's id is unused, so users stay distinct. */
  lemma UpsertKeepsDistinct(users: map<string, int>, next: int, key: string)
    requires UsersDistinct(users, next) && key !in users && next > 0
    ensures UsersDistinct(users[key := next], next + 1)
  {
  }
}
