// Request slots: how many executions a key has in flight, and their independence of money.
module LedgerSlots {
  import opened Base
  import opened Calendar
  import opened Sums
  import opened Ledger
  import opened LedgerInvariant
  import opened LedgerSteps
  import opened LedgerRuns
  import opened LedgerBounds
  import opened LedgerLimits

  // Executions beyond the limit; 0 for an unknown key or one without a limit.
  ghost function Crowd(db: Db, k: Id): nat {
    if k in db.keys && db.keys[k].policy.maxConcurrent > 0
    then Max(0, Active(db, k) - db.keys[k].policy.maxConcurrent)
    else 0
  }

  ghost predicate SlotsKept(db: Db, after: Db, k: Id) {
    k in db.keys ==> k in after.keys && after.keys[k].policy.maxConcurrent >= db.keys[k].policy.maxConcurrent > 0
  }

  // Only a hold takes a slot, and only a free one.
  lemma EffectCrowd(env: Env, db: Db, e: Effect, now: int, k: Id)
    requires Valid(db) && Legal(db, e) && Admitted(env, db, e, now) && SlotsKept(db, Apply(db, e, now), k)
    ensures Crowd(Apply(db, e, now), k) <= Crowd(db, k)
  {
    if k !in db.keys {
      NewKeyCrowd(db, e, now, k);
    } else {
      MeasureMoves(db, e, now, ActiveBy(k));
      if e.Hold? {
        AdmittedHold(env, db, e.req, now);
      }
    }
  }

  lemma NewKeyCrowd(db: Db, e: Effect, now: int, k: Id)
    requires Valid(db) && Legal(db, e) && k !in db.keys
    ensures Crowd(Apply(db, e, now), k) == 0
  {
    if k in Apply(db, e, now).keys {
      IdleKey(db, k);
    }
  }

  lemma IdleKey(db: Db, k: Id)
    requires Valid(db) && k !in db.keys
    ensures Active(db, k) == 0
  {
    forall id | id in db.reservations ensures ActiveBy(k)(id, db.reservations[id]) == 0 {
      assert ReservationFits(db.keys, db.reservations[id]);
    }
    AllZero(db.reservations, ActiveBy(k));
  }

  ghost predicate SlotsKeptRun(env: Env, db: Db, es: seq<Event>, k: Id) {
    es != [] ==>
      var n := |es| - 1;
      SlotsKeptRun(env, db, es[..n], k) && SlotsKept(Run(env, db, es[..n]), Run(env, db, es), k)
  }

  // With a positive, never lowered limit, held and unfinished reservations never exceed it.
  lemma {:induction false} RunCrowd(env: Env, db: Db, es: seq<Event>, k: Id)
    requires Valid(db) && SlotsKeptRun(env, db, es, k)
    ensures Crowd(Run(env, db, es), k) <= Crowd(db, k)
  {
    if es != [] {
      var n := |es| - 1;
      RunCrowd(env, db, es[..n], k);
      RunValid(env, db, es[..n]);
      var before := Run(env, db, es[..n]);
      StepHasEffect(env, before, es[n].op, es[n].at);
      EffectCrowd(env, before, EffectOf(env, before, es[n].op, es[n].at), es[n].at, k);
    }
  }

  // A freed slot is never occupied again by the same reservation, whatever happens next.
  lemma FreedSlotStaysFree(env: Env, db: Db, es: seq<Event>, id: Id)
    requires Valid(db) && id in db.reservations
    requires !db.reservations[id].status.Held? || db.reservations[id].finished.Some?
    ensures var later := Run(env, db, es);
            id in later.reservations && ActiveBy(db.reservations[id].key)(id, later.reservations[id]) == 0
  {
    RunProgress(env, db, es);
    assert Evolves(db.reservations[id], Run(env, db, es).reservations[id]);
  }

  ghost predicate Occupies(db: Db, id: Id) {
    id != "" && id in db.reservations && db.reservations[id].status.Held? && db.reservations[id].finished.None?
  }

  // Finishing an execution frees exactly one slot and moves no money: counters, rows, held sums,
  // period sums, drift and deficit are what they were.
  lemma FinishFreesOnlyTheSlot(db: Db, id: Id, now: int, k: Id, start: int)
    requires Valid(db)
    ensures var after := FinishExecution(db, id, now);
            && after.keys == db.keys && after.ledger == db.ledger
            && SumMap(after.reservations, HeldBy(k)) == SumMap(db.reservations, HeldBy(k))
            && SpendSince(after, k, start) == SpendSince(db, k, start)
            && (k in db.keys ==> Drift(after, k) == Drift(db, k))
            && Deficit(after, k) == Deficit(db, k)
            && Active(after, k) == Active(db, k) - (if Occupies(db, id) && db.reservations[id].key == k then 1 else 0)
  {
    if Occupies(db, id) {
      var done := db.reservations[id].(finished := Some(now));
      SumUpdate(db.reservations, HeldBy(k), id, done);
      SumUpdate(db.reservations, HeldSince(k, start), id, done);
      SumUpdate(db.reservations, ActiveBy(k), id, done);
    }
  }
}
