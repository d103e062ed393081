/** The batch worker (cmd/worker/main.go): the daily next-run rule, the job
    names accepted on the command line, and the order in which a one-shot
    run executes the jobs against the lifecycle store. */
module Worker {
  import opened Wrappers
  import opened SettlementStore

  const SecondsPerDay: int := 24 * 60 * 60

  /** `time.Now().Truncate(24 * time.Hour)`: the day an instant falls in. */
  function Today(now: Instant): Day {
    now / SecondsPerDay
  }

  /** The next run of a daily job at hour:minute, from `now`: today at that
      time, or the same time tomorrow when that is already before now.
      Instants are UTC seconds; time zones and DST are not modelled. */
  function NextRun(now: Instant, hour: int, minute: int): Instant {
    var dayStart := (now / SecondsPerDay) * SecondsPerDay;
    var next := dayStart + hour * 3600 + minute * 60;
    if next < now then next + SecondsPerDay else next
  }

  /** The seconds into the day at which a job scheduled at hour:minute runs. */
  function Slot(hour: int, minute: int): int {
    hour * 3600 + minute * 60
  }

  /** For a valid hour and minute the worker sleeps less than a day, never a
      negative time, and wakes at the configured time of day. */
  lemma NextRunBounds(now: Instant, hour: int, minute: int)
    requires 0 <= hour < 24 && 0 <= minute < 60
    ensures 0 <= NextRun(now, hour, minute) - now < SecondsPerDay
    ensures NextRun(now, hour, minute) % SecondsPerDay == Slot(hour, minute)
  {
    var dayStart := (now / SecondsPerDay) * SecondsPerDay;
    assert dayStart <= now < dayStart + SecondsPerDay;
    var next := NextRun(now, hour, minute);
    if dayStart + Slot(hour, minute) < now {
      assert next == (now / SecondsPerDay + 1) * SecondsPerDay + Slot(hour, minute);
    } else {
      assert next == (now / SecondsPerDay) * SecondsPerDay + Slot(hour, minute);
    }
  }

  /** The next run is the earliest instant not before now at that time of day. */
  lemma NextRunEarliest(now: Instant, hour: int, minute: int, t: Instant)
    requires 0 <= hour < 24 && 0 <= minute < 60
    requires t >= now && t % SecondsPerDay == Slot(hour, minute)
    ensures NextRun(now, hour, minute) <= t
  {
    NextRunBounds(now, hour, minute);
    var next := NextRun(now, hour, minute);
    assert t == (t / SecondsPerDay) * SecondsPerDay + Slot(hour, minute);
    assert next == (next / SecondsPerDay) * SecondsPerDay + Slot(hour, minute);
  }

  /** The jobs the worker knows. */
  datatype Job = CloseParticipations | UpdateSettlements | CleanupIdempotency | CleanupSessions | Stats

  function JobName(j: Job): string {
    match j
    case CloseParticipations => "close-participations"
    case UpdateSettlements => "update-settlements"
    case CleanupIdempotency => "cleanup-idempotency"
    case CleanupSessions => "cleanup-sessions"
    case Stats => "stats"
  }

  /** The `-job` switch of runJob; None is the fatal "unknown job". */
  function ParseJob(name: string): Option<Job> {
    if name == "close-participations" then Some(CloseParticipations)
    else if name == "update-settlements" then Some(UpdateSettlements)
    else if name == "cleanup-idempotency" then Some(CleanupIdempotency)
    else if name == "cleanup-sessions" then Some(CleanupSessions)
    else if name == "stats" then Some(Stats)
    else None
  }

  /** runJob accepts exactly the five job names, each naming its own job. */
  lemma ParseJobExactlyNames(name: string, j: Job)
    ensures ParseJob(JobName(j)) == Some(j)
    ensures ParseJob(name) == Some(j) <==> name == JobName(j)
    ensures ParseJob(name).None? <==> forall k: Job :: name != JobName(k)
  {
    if ParseJob(name).None? {
      forall k: Job ensures name != JobName(k) {
        assert ParseJob(JobName(k)) == Some(k);
      }
    } else {
      assert name == JobName(ParseJob(name).value);
    }
  }

  /** The order of runAllJobs. */
  const RunAllOrder: seq<Job> := [CloseParticipations, UpdateSettlements, CleanupIdempotency, CleanupSessions, Stats]

  /** Every job runs exactly once in a one-shot run, closing before updating. */
  lemma RunAllOrderComplete(j: Job)
    ensures j in RunAllOrder
    ensures multiset(RunAllOrder)[j] == 1
    ensures RunAllOrder[0] == CloseParticipations && RunAllOrder[1] == UpdateSettlements
  {
  }

  /** The start-up schedule: close at 00:05, update at 00:10, session cleanup
      at 03:00 (the idempotency cleanup is hourly). */
  const CloseSlot: int := Slot(0, 5)
  const UpdateSlot: int := Slot(0, 10)
  const SessionCleanupSlot: int := Slot(3, 0)

  /** Within any day the close job's run precedes the update job's; the next
      close run is later than the next update run only between 00:05 and
      00:10, when today's close has already happened. */
  lemma DailyCloseBeforeUpdate(now: Instant)
    ensures Today(NextRun(now, 0, 5)) == Today(NextRun(now, 0, 10)) ==> NextRun(now, 0, 5) < NextRun(now, 0, 10)
    ensures var dayStart := Today(now) * SecondsPerDay;
      NextRun(now, 0, 5) > NextRun(now, 0, 10) <==> dayStart + CloseSlot < now <= dayStart + UpdateSlot
  {
    NextRunBounds(now, 0, 5);
    NextRunBounds(now, 0, 10);
    var c := NextRun(now, 0, 5);
    var u := NextRun(now, 0, 10);
    assert c == Today(c) * SecondsPerDay + 300;
    assert u == Today(u) * SecondsPerDay + 600;
  }

  /** After the close job and then the update job, every settlement whose
      participation is terminal carries its outcome: nothing is left for the
      propagation to do. */
  lemma CloseThenUpdateSettles(parts: map<nat, Participation>, setts: map<nat, Settlement>,
                               challenges: map<string, Challenge>, today: Day, id: nat)
    requires id in setts
    ensures var closed := CloseExpired(parts, challenges, today);
      var settled := Propagate(setts, closed);
      id in closed && closed[id].status.Closed? ==>
        settled[id].status == Settled(closed[id].status.outcome)
        || (setts[id].status.Settled? && settled[id] == setts[id])
  {
    var closed := CloseExpired(parts, challenges, today);
    PropagateEffect(setts, closed, id);
  }

  /** The three-day example: proofs on all three days of a participation
      ending on day `end` lead, the next day, to `success` and a refundable
      settlement; two proofs lead to `failed` and no refund. */
  lemma ThreeDayChallenge(end: Day, proofCount: int)
    requires proofCount == 2 || proofCount == 3
    ensures var ch := map["walk" := Challenge("walk", "Walk", 3, 10000, "photo", true)];
      var parts := map[1 := Participation(7, "walk", 1, Active, end - 2, end, proofCount)];
      var setts := map[1 := Settlement(1, 7, "walk", 1, Running, false, 10000)];
      var closed := CloseExpired(parts, ch, end + 1);
      var settled := Propagate(setts, closed);
      && closed[1].status == Closed(if proofCount == 3 then Success else Failed)
      && settled[1].status == Settled(if proofCount == 3 then Success else Failed)
      && settled[1].refundable == (proofCount == 3)
  {
    var ch := map["walk" := Challenge("walk", "Walk", 3, 10000, "photo", true)];
    var parts := map[1 := Participation(7, "walk", 1, Active, end - 2, end, proofCount)];
    var setts := map[1 := Settlement(1, 7, "walk", 1, Running, false, 10000)];
    assert 1 in ExpiredIds(parts, ch, end + 1);
    var closed := CloseExpired(parts, ch, end + 1);
    assert 1 in PropagatingIds(setts, closed);
  }

  /** runAllJobs: close, update, the two cleanups, then the statistics
      (a read-only report, not modelled). The update job sees the statuses the
      close job has just written. */
  method RunAllJobs(db: Store, now: Instant)
    requires db.Valid()
    modifies db
    ensures db.Valid()
    ensures db.participations == CloseExpired(old(db.participations), db.challenges, Today(now))
    ensures db.settlements == Propagate(old(db.settlements), db.participations)
    ensures db.idempotency == PurgeIdempotency(old(db.idempotency), now)
    ensures db.revoked == PurgeRevocations(old(db.revoked), now)
    ensures db.users == old(db.users) && db.payments == old(db.payments) && db.proofs == old(db.proofs)
  {
    var today := Today(now);
    var _ := db.CloseExpiredParticipations(today);
    ghost var closed := db.participations;
    var _ := db.UpdateSettlementStatuses();
    ghost var settled := db.settlements;
    var _ := db.CleanupExpiredIdempotencyKeys(now);
    assert db.participations == closed && db.settlements == settled;
    var _ := db.CleanupOldRevokedSessions(now);
  }

  /** runJob: runs the named job once; an unknown name is fatal (false) and
      touches nothing. */
  method RunJob(db: Store, name: string, now: Instant) returns (known: bool)
    requires db.Valid()
    modifies db
    ensures db.Valid()
    ensures known <==> ParseJob(name).Some?
    ensures db.users == old(db.users) && db.payments == old(db.payments) && db.proofs == old(db.proofs)
    ensures db.participations == (if ParseJob(name) == Some(CloseParticipations)
                                  then CloseExpired(old(db.participations), db.challenges, Today(now))
                                  else old(db.participations))
    ensures db.settlements == (if ParseJob(name) == Some(UpdateSettlements)
                               then Propagate(old(db.settlements), old(db.participations))
                               else old(db.settlements))
    ensures db.idempotency == (if ParseJob(name) == Some(CleanupIdempotency)
                               then PurgeIdempotency(old(db.idempotency), now)
                               else old(db.idempotency))
    ensures db.revoked == (if ParseJob(name) == Some(CleanupSessions)
                           then PurgeRevocations(old(db.revoked), now)
                           else old(db.revoked))
  {
    known := true;
    match ParseJob(name)
    case Some(CloseParticipations) => var _ := db.CloseExpiredParticipations(Today(now));
    case Some(UpdateSettlements) => var _ := db.UpdateSettlementStatuses();
    case Some(CleanupIdempotency) => var _ := db.CleanupExpiredIdempotencyKeys(now);
    case Some(CleanupSessions) => var _ := db.CleanupOldRevokedSessions(now);
    case Some(Stats) =>
    case None => known := false;
  }
}
