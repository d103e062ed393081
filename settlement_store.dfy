/** The relational store behind the challenge lifecycle (store.go): users,
    the challenge catalog, payments, participations, daily proofs, settlements,
    idempotency keys and revoked sessions, each table a map keyed by its
    primary or unique key. A transaction is all-or-nothing; dates are day
    numbers and timestamps are seconds, both passed in by the caller. */
module SettlementStore {
  import opened Wrappers

  /** A calendar day, `time.Now().Truncate(24 * time.Hour)` counted in days. */
  type Day = int
  /** A wall-clock instant in seconds. */
  type Instant = int

  /** Revoked sessions are kept for 30 days. */
  const RevokedSessionRetention: int := 30 * 24 * 60 * 60

  datatype Challenge = Challenge(id: string, title: string, days: int, deposit: int,
                                 proofType: string, isActive: bool)

  datatype PaymentStatus = Created | Done
  datatype Payment = Payment(id: nat, userId: nat, challengeId: string, orderNo: string,
                             amount: int, status: PaymentStatus)

  /** The two terminal outcomes shared by participations and settlements. */
  datatype Outcome = Success | Failed

  /** `active`, then `success` or `failed`. */
  datatype ParticipationStatus = Active | Closed(outcome: Outcome)
  datatype Participation = Participation(userId: nat, challengeId: string, paymentId: nat,
                                         status: ParticipationStatus, startDate: Day,
                                         endDate: Day, proofCount: int)

  /** An accepted proof; every row the store writes has status `accepted`. */
  datatype Proof = Proof(participationId: nat, userId: nat, challengeId: string,
                         proofDate: Day, proofType: string, imageHash: string)

  /** `running`, then the participation's `success` or `failed`. */
  datatype SettlementStatus = Running | Settled(outcome: Outcome)
  datatype Settlement = Settlement(participationId: nat, userId: nat, challengeId: string,
                                   paymentId: nat, status: SettlementStatus,
                                   refundable: bool, depositAmount: int)

  datatype IdempotencyRecord = IdempotencyRecord(responseJson: string, expiresAt: Instant)
  datatype Revocation = Revocation(reason: string, revokedAt: Instant)
  datatype User = User(id: nat, tossUserKey: string)
  datatype BatchResult = BatchResult(processed: nat, failed: nat, errors: seq<string>)

  /** (participation id, proof date): the proof table's unique key. */
  type ProofKey = (nat, Day)
  /** (scope, key): the idempotency table's unique key. */
  type IdemKey = (string, string)

  // ---------------------------------------------------------------------
  // Participations and proofs

  /** The filter of GetActiveParticipation and SubmitProof: the user's active
      participation in the challenge whose window contains `today`. */
  predicate ActiveOn(p: Participation, userId: nat, challengeId: string, today: Day) {
    p.userId == userId && p.challengeId == challengeId && p.status == Active
    && p.startDate <= today <= p.endDate
  }

  /** No two participations share (user, challenge, start date). */
  ghost predicate TriplesUnique(parts: map<nat, Participation>) {
    forall a, b :: a in parts && b in parts && a != b ==>
      (parts[a].userId, parts[a].challengeId, parts[a].startDate)
      != (parts[b].userId, parts[b].challengeId, parts[b].startDate)
  }

  predicate HasTriple(parts: map<nat, Participation>, userId: nat, challengeId: string, start: Day) {
    exists id :: id in parts && parts[id].userId == userId && parts[id].challengeId == challengeId
                 && parts[id].startDate == start
  }

  /** The participation and settlement tables after a payment for a challenge
      of `days` days is executed on `today`: a new active participation
      covering `days` days from today and a running settlement holding the
      paid amount, unless the user already has a participation in that
      challenge starting today. */
  function Enrol(parts: map<nat, Participation>, setts: map<nat, Settlement>, nextPid: nat,
                 p: Payment, days: int, today: Day): (map<nat, Participation>, map<nat, Settlement>)
  {
    if HasTriple(parts, p.userId, p.challengeId, today) then (parts, setts)
    else (parts[nextPid := Participation(p.userId, p.challengeId, p.id, Active, today, today + days - 1, 0)],
          setts[nextPid := Settlement(nextPid, p.userId, p.challengeId, p.id, Running, false, p.amount)])
  }

  /** A second enrolment of the same user in the same challenge on the same
      day changes nothing, whichever payment it comes from. */
  lemma EnrolOncePerDay(parts: map<nat, Participation>, setts: map<nat, Settlement>, nextPid: nat,
                        p: Payment, days: int, today: Day, q: Payment, days': int, nextPid': nat)
    requires q.userId == p.userId && q.challengeId == p.challengeId
    ensures var (parts1, setts1) := Enrol(parts, setts, nextPid, p, days, today);
      && HasTriple(parts1, p.userId, p.challengeId, today)
      && Enrol(parts1, setts1, nextPid', q, days', today) == (parts1, setts1)
  {
    var (parts1, setts1) := Enrol(parts, setts, nextPid, p, days, today);
    if !HasTriple(parts, p.userId, p.challengeId, today) {
      assert parts1[nextPid].userId == p.userId;
    }
  }

  /** An enrolment, when it inserts, covers exactly `days` days from today,
      starts with no proofs, and comes with a running, non-refundable
      settlement holding the paid amount. */
  lemma EnrolWindow(parts: map<nat, Participation>, setts: map<nat, Settlement>, nextPid: nat,
                    p: Payment, days: int, today: Day, d: Day)
    requires !HasTriple(parts, p.userId, p.challengeId, today) && days >= 1
    ensures var (parts1, setts1) := Enrol(parts, setts, nextPid, p, days, today);
      && nextPid in parts1 && parts1[nextPid].status == Active && parts1[nextPid].proofCount == 0
      && (ActiveOn(parts1[nextPid], p.userId, p.challengeId, d) <==> today <= d < today + days)
      && nextPid in setts1
      && setts1[nextPid] == Settlement(nextPid, p.userId, p.challengeId, p.id, Running, false, p.amount)
  {
  }

  /** The days on which a participation has an accepted proof. */
  function ProofDates(proofs: map<ProofKey, Proof>, pid: nat): set<Day> {
    set k | k in proofs && k.0 == pid :: k.1
  }

  /** The recount that SubmitProof stores in `proof_count`. */
  function ProofCount(proofs: map<ProofKey, Proof>, pid: nat): nat {
    |ProofDates(proofs, pid)|
  }

  /** How the upsert on (participation, day) moves the recount: a same-day
      resubmission leaves it alone, a new day adds one, other participations
      are unaffected. */
  lemma ProofCountAfterUpsert(proofs: map<ProofKey, Proof>, pid: nat, day: Day, p: Proof, q: nat)
    ensures (pid, day) in proofs ==> ProofCount(proofs[(pid, day) := p], pid) == ProofCount(proofs, pid)
    ensures (pid, day) !in proofs ==> ProofCount(proofs[(pid, day) := p], pid) == ProofCount(proofs, pid) + 1
    ensures q != pid ==> ProofCount(proofs[(pid, day) := p], q) == ProofCount(proofs, q)
  {
    var after := proofs[(pid, day) := p];
    assert ProofDates(after, pid) == ProofDates(proofs, pid) + {day} by {
      assert (pid, day) in after;
    }
    if (pid, day) in proofs {
      assert day in ProofDates(proofs, pid);
      assert ProofDates(after, pid) == ProofDates(proofs, pid);
    } else {
      assert day !in ProofDates(proofs, pid);
    }
    if q != pid {
      assert ProofDates(after, q) == ProofDates(proofs, q);
    }
  }

  // ---------------------------------------------------------------------
  // Settlement resolver (CloseExpiredParticipations)

  /** The SELECT of CloseExpiredParticipations: active, ended strictly before
      today, and joined with an existing challenge. */
  function ExpiredIds(parts: map<nat, Participation>, challenges: map<string, Challenge>, today: Day): set<nat> {
    set id | id in parts && parts[id].status == Active && parts[id].endDate < today
                           && parts[id].challengeId in challenges
  }

  /** The verdict of one expired participation. */
  function Verdict(proofCount: int, days: int): Outcome {
    if proofCount >= days then Success else Failed
  }

  function Resolve(p: Participation, days: int): Participation {
    p.(status := Closed(Verdict(p.proofCount, days)))
  }

  /** The table after CloseExpiredParticipations. */
  function CloseExpired(parts: map<nat, Participation>, challenges: map<string, Challenge>, today: Day): map<nat, Participation> {
    map id | id in parts ::
      if id in ExpiredIds(parts, challenges, today)
      then Resolve(parts[id], challenges[parts[id].challengeId].days)
      else parts[id]
  }

  /** Resolves exactly the participations in `ids`, by their challenge's length;
      the loop of CloseExpiredParticipations passes through these states. */
  function ResolveAll(parts: map<nat, Participation>, ids: set<nat>, challenges: map<string, Challenge>): map<nat, Participation>
    requires forall id :: id in ids && id in parts ==> parts[id].challengeId in challenges
  {
    map id | id in parts ::
      if id in ids then Resolve(parts[id], challenges[parts[id].challengeId].days) else parts[id]
  }

  lemma ResolveAllStep(parts: map<nat, Participation>, ids: set<nat>, challenges: map<string, Challenge>, id: nat)
    requires forall i :: i in ids + {id} && i in parts ==> parts[i].challengeId in challenges
    requires id in parts && id !in ids
    ensures ResolveAll(parts, ids + {id}, challenges)
            == ResolveAll(parts, ids, challenges)[id := Resolve(parts[id], challenges[parts[id].challengeId].days)]
    ensures ResolveAll(parts, ids, challenges)[id] == parts[id]
  {
  }

  /** The row-by-row UPDATE loop of CloseExpiredParticipations: each selected
      participation gets the verdict for its challenge; `processed` counts the
      rows updated. */
  method ResolveEach(parts: map<nat, Participation>, expired: set<nat>, challenges: map<string, Challenge>)
    returns (closed: map<nat, Participation>, processed: nat)
    requires forall i :: i in expired ==> i in parts && parts[i].challengeId in challenges
    ensures closed == ResolveAll(parts, expired, challenges)
    ensures processed == |expired|
  {
    closed := parts;
    processed := 0;
    var todo := expired;
    while todo != {}
      invariant todo <= expired
      invariant closed.Keys == parts.Keys
      invariant forall i :: i in parts ==>
        closed[i] == if i in expired && i !in todo
                     then Resolve(parts[i], challenges[parts[i].challengeId].days)
                     else parts[i]
      invariant processed + |todo| == |expired|
      decreases |todo|
    {
      var id :| id in todo;
      var ep := closed[id];
      var outcome := if ep.proofCount >= challenges[ep.challengeId].days then Success else Failed;
      closed := closed[id := ep.(status := Closed(outcome))];
      processed := processed + 1;
      todo := todo - {id};
    }
    assert closed == ResolveAll(parts, expired, challenges);
  }

  lemma CloseExpiredByResolveAll(parts: map<nat, Participation>, challenges: map<string, Challenge>, today: Day)
    ensures ResolveAll(parts, ExpiredIds(parts, challenges, today), challenges) == CloseExpired(parts, challenges, today)
    ensures TerminalKept(parts, CloseExpired(parts, challenges, today))
  {
  }

  /** What closing does to one participation: an expired one becomes `success`
      exactly when it has at least the challenge's number of proofs and
      `failed` otherwise; every other participation keeps its status; no
      field other than the status changes. */
  lemma CloseExpiredEffect(parts: map<nat, Participation>, challenges: map<string, Challenge>, today: Day, id: nat)
    requires id in parts
    ensures var after := CloseExpired(parts, challenges, today);
      && id in after
      && after[id].(status := parts[id].status) == parts[id]
      && (id in ExpiredIds(parts, challenges, today) <==> after[id].status != parts[id].status)
      && (id in ExpiredIds(parts, challenges, today) ==>
            (after[id].status == Closed(Success) <==> parts[id].proofCount >= challenges[parts[id].challengeId].days))
  {
  }

  /** Closing never reopens or flips a terminal participation. */
  ghost predicate TerminalKept(before: map<nat, Participation>, after: map<nat, Participation>) {
    forall id :: id in before && before[id].status.Closed? ==> id in after && after[id].status == before[id].status
  }

  lemma CloseExpiredKeepsTerminal(parts: map<nat, Participation>, challenges: map<string, Challenge>, today: Day)
    ensures TerminalKept(parts, CloseExpired(parts, challenges, today))
  {
  }

  /** Re-running the resolver on the same day finds nothing left to do and
      changes nothing: a crash-and-restart reprocesses only what is left. */
  lemma CloseExpiredIdempotent(parts: map<nat, Participation>, challenges: map<string, Challenge>, today: Day)
    ensures ExpiredIds(CloseExpired(parts, challenges, today), challenges, today) == {}
    ensures CloseExpired(CloseExpired(parts, challenges, today), challenges, today)
            == CloseExpired(parts, challenges, today)
  {
    var once := CloseExpired(parts, challenges, today);
    forall id | id in once ensures id !in ExpiredIds(once, challenges, today) {
      if id in ExpiredIds(parts, challenges, today) {
        assert once[id].status.Closed?;
      } else {
        assert once[id] == parts[id];
      }
    }
    assert ExpiredIds(once, challenges, today) == {};
  }

  // ---------------------------------------------------------------------
  // Settlement propagation (UpdateSettlementStatuses)

  /** The rows the bulk UPDATE touches: still `running`, and the participation
      is terminal. */
  function PropagatingIds(setts: map<nat, Settlement>, parts: map<nat, Participation>): set<nat> {
    set id | id in setts && setts[id].status == Running && id in parts && parts[id].status.Closed?
  }

  function Propagate(setts: map<nat, Settlement>, parts: map<nat, Participation>): map<nat, Settlement> {
    map id | id in setts ::
      if id in PropagatingIds(setts, parts)
      then var o := parts[id].status.outcome;
           setts[id].(status := Settled(o), refundable := o == Success)
      else setts[id]
  }

  /** A propagated settlement copies its participation's outcome and is
      refundable exactly on success; untouched rows stay as they were. */
  lemma PropagateEffect(setts: map<nat, Settlement>, parts: map<nat, Participation>, id: nat)
    requires id in setts
    ensures var after := Propagate(setts, parts);
      && id in after
      && (id in PropagatingIds(setts, parts) ==>
            && after[id].status == Settled(parts[id].status.outcome)
            && (after[id].refundable <==> parts[id].status == Closed(Success))
            && after[id].(status := setts[id].status, refundable := setts[id].refundable) == setts[id])
      && (id !in PropagatingIds(setts, parts) ==> after[id] == setts[id])
  {
  }

  /** Running the propagation again updates zero rows and changes nothing. */
  lemma PropagateIdempotent(setts: map<nat, Settlement>, parts: map<nat, Participation>)
    ensures PropagatingIds(Propagate(setts, parts), parts) == {}
    ensures Propagate(Propagate(setts, parts), parts) == Propagate(setts, parts)
  {
    var once := Propagate(setts, parts);
    forall id | id in once ensures id !in PropagatingIds(once, parts) {
      if id in PropagatingIds(setts, parts) {
        assert once[id].status.Settled?;
      } else {
        assert once[id] == setts[id];
      }
    }
    assert PropagatingIds(once, parts) == {};
  }

  /** A settlement agrees with its participation: once settled it carries the
      participation's outcome and is refundable exactly on success; while
      running it is not refundable. */
  predicate SettlementAgrees(s: Settlement, p: Participation) {
    match s.status
    case Running => !s.refundable
    case Settled(o) => p.status == Closed(o) && s.refundable == (o == Success)
  }

  /** Serial user ids below the next one, one per toss_user_key. */
  ghost predicate UsersTable(users: map<string, nat>, nextUserId: nat) {
    && nextUserId >= 1
    && (forall k :: k in users ==> 0 < users[k] < nextUserId)
    && (forall k1, k2 :: k1 in users && k2 in users && k1 != k2 ==> users[k1] != users[k2])
  }

  /** Payments are keyed by their order number and carry serial ids. */
  ghost predicate PaymentsTable(payments: map<string, Payment>, nextPaymentId: nat) {
    && nextPaymentId >= 1
    && (forall o :: o in payments ==> payments[o].orderNo == o && 0 < payments[o].id < nextPaymentId)
  }

  /** The schema constraints linking participations, proofs and settlements:
      serial ids below the next one, the (user, challenge, start) unique key,
      proofs and settlements pointing at an existing participation, every
      `proof_count` equal to the recount, and settlements agreeing with
      their participation. */
  ghost predicate LifecycleTables(parts: map<nat, Participation>, nextPid: nat,
                                  proofs: map<ProofKey, Proof>, setts: map<nat, Settlement>) {
    && nextPid >= 1
    && (forall id :: id in parts ==> 0 < id < nextPid)
    && TriplesUnique(parts)
    && (forall k :: k in proofs ==> k.0 in parts && proofs[k].participationId == k.0
                                    && proofs[k].proofDate == k.1)
    && (forall id :: id in parts ==> parts[id].proofCount == ProofCount(proofs, id))
    && (forall id :: id in setts ==> id in parts && setts[id].participationId == id)
    && (forall id :: id in setts ==> SettlementAgrees(setts[id], parts[id]))
  }

  /** Inserting a fresh active participation with no proofs, together with its
      running settlement, keeps the tables consistent. */
  lemma InsertParticipationKeeps(parts: map<nat, Participation>, nextPid: nat, proofs: map<ProofKey, Proof>,
                                 setts: map<nat, Settlement>, p: Participation, s: Settlement)
    requires LifecycleTables(parts, nextPid, proofs, setts)
    requires !HasTriple(parts, p.userId, p.challengeId, p.startDate)
    requires p.status == Active && p.proofCount == 0
    requires s.participationId == nextPid && s.status == Running && !s.refundable
    ensures LifecycleTables(parts[nextPid := p], nextPid + 1, proofs, setts[nextPid := s])
  {
    assert ProofDates(proofs, nextPid) == {};
    var parts' := parts[nextPid := p];
    forall a, b | a in parts' && b in parts' && a != b
      ensures (parts'[a].userId, parts'[a].challengeId, parts'[a].startDate)
              != (parts'[b].userId, parts'[b].challengeId, parts'[b].startDate)
    {
      if a == nextPid {
        assert b in parts;
      } else if b == nextPid {
        assert a in parts;
      }
    }
  }

  /** Upserting a proof of an existing participation and storing the recount
      keeps the tables consistent. */
  lemma UpsertProofKeeps(parts: map<nat, Participation>, nextPid: nat, proofs: map<ProofKey, Proof>,
                         setts: map<nat, Settlement>, pid: nat, day: Day, proof: Proof)
    requires LifecycleTables(parts, nextPid, proofs, setts)
    requires pid in parts && proof.participationId == pid && proof.proofDate == day
    ensures var proofs' := proofs[(pid, day) := proof];
      LifecycleTables(parts[pid := parts[pid].(proofCount := ProofCount(proofs', pid))], nextPid, proofs', setts)
  {
    var proofs' := proofs[(pid, day) := proof];
    var parts' := parts[pid := parts[pid].(proofCount := ProofCount(proofs', pid))];
    forall q | q in parts' ensures parts'[q].proofCount == ProofCount(proofs', q) {
      ProofCountAfterUpsert(proofs, pid, day, proof, q);
    }
    forall a, b | a in parts' && b in parts' && a != b
      ensures (parts'[a].userId, parts'[a].challengeId, parts'[a].startDate)
              != (parts'[b].userId, parts'[b].challengeId, parts'[b].startDate)
    {
      assert a in parts && b in parts;
    }
  }

  /** The resolver keeps the tables consistent: it changes only statuses, and
      only of active participations, whose settlements are still running. */
  lemma CloseExpiredKeeps(parts: map<nat, Participation>, nextPid: nat, proofs: map<ProofKey, Proof>,
                          setts: map<nat, Settlement>, challenges: map<string, Challenge>, today: Day)
    requires LifecycleTables(parts, nextPid, proofs, setts)
    ensures LifecycleTables(CloseExpired(parts, challenges, today), nextPid, proofs, setts)
  {
    var parts' := CloseExpired(parts, challenges, today);
    forall a, b | a in parts' && b in parts' && a != b
      ensures (parts'[a].userId, parts'[a].challengeId, parts'[a].startDate)
              != (parts'[b].userId, parts'[b].challengeId, parts'[b].startDate)
    {
      assert a in parts && b in parts;
    }
    forall q | q in setts ensures SettlementAgrees(setts[q], parts'[q]) {
      assert SettlementAgrees(setts[q], parts[q]);
    }
  }

  /** Propagating terminal outcomes keeps the tables consistent. */
  lemma PropagateKeeps(parts: map<nat, Participation>, nextPid: nat, proofs: map<ProofKey, Proof>,
                       setts: map<nat, Settlement>)
    requires LifecycleTables(parts, nextPid, proofs, setts)
    ensures LifecycleTables(parts, nextPid, proofs, Propagate(setts, parts))
  {
    var setts' := Propagate(setts, parts);
    forall q | q in setts' ensures SettlementAgrees(setts'[q], parts[q]) {
      PropagateEffect(setts, parts, q);
    }
  }

  // ---------------------------------------------------------------------
  // Idempotency keys and revoked sessions

  /** CheckIdempotency's filter: the key exists and has not expired yet. */
  predicate IdemLive(idem: map<IdemKey, IdempotencyRecord>, k: IdemKey, now: Instant) {
    k in idem && idem[k].expiresAt > now
  }

  /** The rows CleanupExpiredIdempotencyKeys deletes: expiry strictly past. */
  function ExpiredIdemKeys(idem: map<IdemKey, IdempotencyRecord>, now: Instant): set<IdemKey> {
    set k | k in idem && idem[k].expiresAt < now
  }

  /** The table after CleanupExpiredIdempotencyKeys. */
  function PurgeIdempotency(idem: map<IdemKey, IdempotencyRecord>, now: Instant): map<IdemKey, IdempotencyRecord> {
    map k | k in idem && k !in ExpiredIdemKeys(idem, now) :: idem[k]
  }

  /** The cleanup deletes only rows that had already expired, so it never
      changes what CheckIdempotency reports. */
  lemma PurgeKeepsLiveKeys(idem: map<IdemKey, IdempotencyRecord>, now: Instant, k: IdemKey)
    ensures IdemLive(PurgeIdempotency(idem, now), k, now) == IdemLive(idem, k, now)
    ensures k in idem && k !in PurgeIdempotency(idem, now) ==> idem[k].expiresAt < now
    ensures k in PurgeIdempotency(idem, now) ==> k in idem && PurgeIdempotency(idem, now)[k] == idem[k]
  {
  }

  /** The revocations CleanupOldRevokedSessions deletes: older than the
      retention period. */
  function StaleRevocations(revoked: map<string, Revocation>, now: Instant): set<string> {
    set s | s in revoked && revoked[s].revokedAt < now - RevokedSessionRetention
  }

  function PurgeRevocations(revoked: map<string, Revocation>, now: Instant): map<string, Revocation> {
    map s | s in revoked && s !in StaleRevocations(revoked, now) :: revoked[s]
  }

  /** The session cleanup deletes only revocations older than the retention
      period and keeps the rest unchanged. */
  lemma PurgeRevocationsEffect(revoked: map<string, Revocation>, now: Instant, s: string)
    ensures s in PurgeRevocations(revoked, now) <==> s in revoked && revoked[s].revokedAt >= now - RevokedSessionRetention
    ensures s in PurgeRevocations(revoked, now) ==> PurgeRevocations(revoked, now)[s] == revoked[s]
  {
  }

  // ---------------------------------------------------------------------
  // The store

  class Store {
    var users: map<string, nat>
    var nextUserId: nat
    const challenges: map<string, Challenge>
    var payments: map<string, Payment>
    var nextPaymentId: nat
    var participations: map<nat, Participation>
    var nextParticipationId: nat
    var proofs: map<ProofKey, Proof>
    var settlements: map<nat, Settlement>
    var idempotency: map<IdemKey, IdempotencyRecord>
    var revoked: map<string, Revocation>

    /** The constraints of the schema, plus the derived counters staying in
        step with the tables they count. */
    ghost predicate Valid()
      reads this`users, this`nextUserId, this`payments, this`nextPaymentId
      reads this`participations, this`nextParticipationId, this`proofs, this`settlements
    {
      && UsersTable(users, nextUserId)
      && PaymentsTable(payments, nextPaymentId)
      && LifecycleTables(participations, nextParticipationId, proofs, settlements)
    }

    /** An empty database over a given challenge catalog. */
    constructor (catalog: map<string, Challenge>)
      ensures Valid() && challenges == catalog
      ensures users == map[] && payments == map[] && participations == map[] && proofs == map[]
      ensures settlements == map[] && idempotency == map[] && revoked == map[]
    {
      users, nextUserId := map[], 1;
      challenges := catalog;
      payments, nextPaymentId := map[], 1;
      participations, nextParticipationId := map[], 1;
      proofs, settlements := map[], map[];
      idempotency, revoked := map[], map[];
    }

    /** Insert-or-touch on toss_user_key: a known key keeps its id, a new key
        gets a fresh one. */
    method GetOrCreateUser(tossUserKey: string) returns (u: User)
      requires Valid()
      modifies this`users, this`nextUserId
      ensures Valid()
      ensures u.tossUserKey == tossUserKey && tossUserKey in users && users[tossUserKey] == u.id
      ensures tossUserKey in old(users) ==> users == old(users) && u.id == old(users)[tossUserKey]
      ensures tossUserKey !in old(users) ==> users == old(users)[tossUserKey := u.id] && u.id == old(nextUserId)
    {
      if tossUserKey in users {
        u := User(users[tossUserKey], tossUserKey);
      } else {
        u := User(nextUserId, tossUserKey);
        users := users[tossUserKey := nextUserId];
        nextUserId := nextUserId + 1;
      }
    }

    /** Inserts a `created` payment. The order number is taken to be unique. */
    method CreatePayment(userId: nat, challengeId: string, orderNo: string, amount: int)
      returns (r: Result<Payment, string>)
      requires Valid()
      modifies this`payments, this`nextPaymentId
      ensures Valid()
      ensures orderNo in old(payments) ==> r.Err? && payments == old(payments)
      ensures orderNo !in old(payments) ==>
        && r == Ok(Payment(old(nextPaymentId), userId, challengeId, orderNo, amount, Created))
        && payments == old(payments)[orderNo := r.value]
    {
      if orderNo in payments {
        return Err("create payment: duplicate order_no");
      }
      var p := Payment(nextPaymentId, userId, challengeId, orderNo, amount, Created);
      payments := payments[orderNo := p];
      nextPaymentId := nextPaymentId + 1;
      r := Ok(p);
    }

    /** The execute-payment transaction: mark the payment done, insert the
        participation unless (user, challenge, today) already exists, and
        insert its settlement only if the participation was inserted. */
    method ExecutePayment(orderNo: string, today: Day) returns (r: Result<Payment, string>)
      requires Valid()
      modifies this`payments, this`participations, this`settlements, this`nextParticipationId
      ensures Valid()
      ensures (orderNo !in old(payments) || old(payments)[orderNo].status != Created) ==>
        && r == Err("payment not found or already executed")
        && payments == old(payments) && participations == old(participations)
        && settlements == old(settlements)
      ensures orderNo in old(payments) && old(payments)[orderNo].status == Created
              && old(payments)[orderNo].challengeId !in challenges ==>
        && r.Err?
        && payments == old(payments) && participations == old(participations)
        && settlements == old(settlements)
      ensures orderNo in old(payments) && old(payments)[orderNo].status == Created
              && old(payments)[orderNo].challengeId in challenges ==>
        var p := old(payments)[orderNo].(status := Done);
        && r == Ok(p)
        && payments == old(payments)[orderNo := p]
        && (participations, settlements)
           == Enrol(old(participations), old(settlements), old(nextParticipationId),
                    p, challenges[p.challengeId].days, today)
    {
      // UPDATE payment SET status = 'done' WHERE order_no = $1 AND status = 'created'
      if orderNo !in payments || payments[orderNo].status != Created {
        return Err("payment not found or already executed");
      }
      var p := payments[orderNo].(status := Done);
      var txPayments := payments[orderNo := p];

      if p.challengeId !in challenges {
        // the transaction is rolled back: nothing written above is kept
        return Err("get challenge days: no rows in result set");
      }
      var days := challenges[p.challengeId].days;
      // commit
      payments := txPayments;
      StartParticipation(p, days, today);
      r := Ok(p);
    }

    /** The participation and settlement inserts of ExecutePayment: the
        participation is inserted unless (user, challenge, start) exists
        (ON CONFLICT DO NOTHING), and the settlement only if it was. */
    method StartParticipation(p: Payment, days: int, today: Day)
      requires Valid()
      modifies this`participations, this`settlements, this`nextParticipationId
      ensures Valid()
      ensures (participations, settlements)
              == Enrol(old(participations), old(settlements), old(nextParticipationId), p, days, today)
    {
      var startDate := today;
      var endDate := startDate + days - 1;
      var txParts := participations;
      var partId: nat := 0;
      if !HasTriple(participations, p.userId, p.challengeId, startDate) {
        partId := nextParticipationId;
        txParts := participations[partId := Participation(p.userId, p.challengeId, p.id, Active, startDate, endDate, 0)];
      }

      var txSetts := settlements;
      if partId > 0 && partId !in settlements {
        txSetts := settlements[partId := Settlement(partId, p.userId, p.challengeId, p.id, Running, false, p.amount)];
      }

      if partId > 0 {
        InsertParticipationKeeps(participations, nextParticipationId, proofs, settlements,
                                 txParts[partId], txSetts[partId]);
        nextParticipationId := nextParticipationId + 1;
      }
      participations, settlements := txParts, txSetts;
    }

    /** The active participation of a user in a challenge whose window
        contains today, if any. */
    method GetActiveParticipation(userId: nat, challengeId: string, today: Day)
      returns (r: Option<Participation>)
      ensures r.Some? <==> exists id :: id in participations && ActiveOn(participations[id], userId, challengeId, today)
      ensures r.Some? ==> r.value in participations.Values && ActiveOn(r.value, userId, challengeId, today)
    {
      if id :| id in participations && ActiveOn(participations[id], userId, challengeId, today) {
        r := Some(participations[id]);
      } else {
        r := None;
      }
    }

    /** Records today's proof: fails, writing nothing, without an active
        participation covering today; otherwise upserts the proof on
        (participation, today) and stores the recount in `proof_count`. */
    method SubmitProof(userId: nat, challengeId: string, proofType: string, imageHash: string, today: Day)
      returns (r: Result<Proof, string>)
      requires Valid()
      modifies this`proofs, this`participations
      ensures Valid()
      ensures r.Err? ==>
        && r.error == "no active participation found"
        && (forall id :: id in old(participations) ==> !ActiveOn(old(participations)[id], userId, challengeId, today))
        && proofs == old(proofs) && participations == old(participations)
      ensures r.Ok? ==>
        var pid := r.value.participationId;
        && pid in old(participations) && ActiveOn(old(participations)[pid], userId, challengeId, today)
        && r.value.proofDate == today && r.value.imageHash == imageHash
        && proofs == old(proofs)[(pid, today) := r.value]
        && ((pid, today) in old(proofs) ==> r.value == old(proofs)[(pid, today)].(imageHash := imageHash))
        && ((pid, today) !in old(proofs) ==> r.value == Proof(pid, userId, challengeId, today, proofType, imageHash))
        && participations == old(participations)[pid := old(participations)[pid].(proofCount := ProofCount(proofs, pid))]
      ensures TerminalKept(old(participations), participations)
    {
      if pid :| pid in participations && ActiveOn(participations[pid], userId, challengeId, today) {
        var p := UpsertProof(pid, userId, challengeId, proofType, imageHash, today);
        r := Ok(p);
      } else {
        r := Err("no active participation found");
      }
    }

    /** The two statements SubmitProof runs once it has found participation
        `pid`: the proof upsert and the `proof_count` recount. */
    method UpsertProof(pid: nat, userId: nat, challengeId: string, proofType: string, imageHash: string, today: Day)
      returns (p: Proof)
      requires Valid() && pid in participations
      modifies this`proofs, this`participations
      ensures Valid()
      ensures p.participationId == pid && p.proofDate == today && p.imageHash == imageHash
      ensures (pid, today) in old(proofs) ==> p == old(proofs)[(pid, today)].(imageHash := imageHash)
      ensures (pid, today) !in old(proofs) ==> p == Proof(pid, userId, challengeId, today, proofType, imageHash)
      ensures proofs == old(proofs)[(pid, today) := p]
      ensures participations == old(participations)[pid := old(participations)[pid].(proofCount := ProofCount(proofs, pid))]
    {
      // INSERT ... ON CONFLICT (participation_id, proof_date) DO UPDATE SET image_hash
      if (pid, today) in proofs {
        p := proofs[(pid, today)].(imageHash := imageHash);
      } else {
        p := Proof(pid, userId, challengeId, today, proofType, imageHash);
      }
      UpsertProofKeeps(participations, nextParticipationId, proofs, settlements, pid, today, p);
      proofs := proofs[(pid, today) := p];
      // UPDATE participation SET proof_count = (SELECT COUNT(*) ...)
      var count := ProofCount(proofs, pid);
      participations := participations[pid := participations[pid].(proofCount := count)];
    }

    /** Some accepted proof with this hash from a different user, if any. */
    method CheckDuplicateProofHash(imageHash: string, excludeUserId: nat) returns (r: Option<Proof>)
      ensures r.Some? <==> exists k :: k in proofs && proofs[k].imageHash == imageHash && proofs[k].userId != excludeUserId
      ensures r.Some? ==> r.value in proofs.Values && r.value.imageHash == imageHash && r.value.userId != excludeUserId
    {
      if k :| k in proofs && proofs[k].imageHash == imageHash && proofs[k].userId != excludeUserId {
        r := Some(proofs[k]);
      } else {
        r := None;
      }
    }

    /** Some accepted proof with this hash from the same user, if any. */
    method CheckSameUserDuplicateHash(imageHash: string, userId: nat) returns (r: Option<Proof>)
      ensures r.Some? <==> exists k :: k in proofs && proofs[k].imageHash == imageHash && proofs[k].userId == userId
      ensures r.Some? ==> r.value in proofs.Values && r.value.imageHash == imageHash && r.value.userId == userId
    {
      if k :| k in proofs && proofs[k].imageHash == imageHash && proofs[k].userId == userId {
        r := Some(proofs[k]);
      } else {
        r := None;
      }
    }

    /** Whether (scope, key) is present and not yet expired. */
    method CheckIdempotency(scope: string, key: string, now: Instant) returns (exists_: bool)
      ensures exists_ <==> IdemLive(idempotency, (scope, key), now)
    {
      exists_ := (scope, key) in idempotency && idempotency[(scope, key)].expiresAt > now;
    }

    /** Inserts (scope, key) with an expiry `ttl` seconds ahead; an existing
        row is never overwritten. */
    method SetIdempotency(scope: string, key: string, ttl: int, now: Instant)
      modifies this`idempotency
      ensures (scope, key) in old(idempotency) ==> idempotency == old(idempotency)
      ensures (scope, key) !in old(idempotency) ==>
        idempotency == old(idempotency)[(scope, key) := IdempotencyRecord("{}", now + ttl)]
    {
      if (scope, key) !in idempotency {
        idempotency := idempotency[(scope, key) := IdempotencyRecord("{}", now + ttl)];
      }
    }

    /** Upsert on the subject: a second revocation updates reason and time. */
    method RevokeSession(userSub: string, reason: string, now: Instant)
      modifies this`revoked
      ensures revoked == old(revoked)[userSub := Revocation(reason, now)]
    {
      revoked := revoked[userSub := Revocation(reason, now)];
    }

    /** Plain membership in the revoked-session table. */
    method IsSessionRevoked(userSub: string) returns (b: bool)
      ensures b <==> userSub in revoked
    {
      b := userSub in revoked;
    }

    /** The daily resolver: every active participation that ended before
        today becomes `success` or `failed`; `processed` counts them. */
    method CloseExpiredParticipations(today: Day) returns (result: BatchResult)
      requires Valid()
      modifies this`participations
      ensures Valid()
      ensures participations == CloseExpired(old(participations), challenges, today)
      ensures result == BatchResult(|ExpiredIds(old(participations), challenges, today)|, 0, [])
      ensures TerminalKept(old(participations), participations)
    {
      var expired := ExpiredIds(participations, challenges, today);
      var closed, processed := ResolveEach(participations, expired, challenges);
      CloseExpiredByResolveAll(participations, challenges, today);
      CloseExpiredKeeps(participations, nextParticipationId, proofs, settlements, challenges, today);
      participations := closed;
      result := BatchResult(processed, 0, []);
    }

    /** The bulk propagation from terminal participations to their running
        settlements; `processed` is the number of rows updated. */
    method UpdateSettlementStatuses() returns (result: BatchResult)
      requires Valid()
      modifies this`settlements
      ensures Valid()
      ensures settlements == Propagate(old(settlements), participations)
      ensures result == BatchResult(|PropagatingIds(old(settlements), participations)|, 0, [])
    {
      var ids := PropagatingIds(settlements, participations);
      PropagateKeeps(participations, nextParticipationId, proofs, settlements);
      settlements := Propagate(settlements, participations);
      result := BatchResult(|ids|, 0, []);
    }

    /** Deletes the idempotency rows whose expiry is already past. */
    method CleanupExpiredIdempotencyKeys(now: Instant) returns (result: BatchResult)
      modifies this`idempotency
      ensures idempotency == PurgeIdempotency(old(idempotency), now)
      ensures result == BatchResult(|ExpiredIdemKeys(old(idempotency), now)|, 0, [])
    {
      result := BatchResult(|ExpiredIdemKeys(idempotency, now)|, 0, []);
      idempotency := PurgeIdempotency(idempotency, now);
    }

    /** Deletes revocations older than the retention period. */
    method CleanupOldRevokedSessions(now: Instant) returns (result: BatchResult)
      modifies this`revoked
      ensures revoked == PurgeRevocations(old(revoked), now)
      ensures result == BatchResult(|StaleRevocations(old(revoked), now)|, 0, [])
    {
      result := BatchResult(|StaleRevocations(revoked, now)|, 0, []);
      revoked := PurgeRevocations(revoked, now);
    }
  }
}
