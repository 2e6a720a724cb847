// What holds after every run of store steps: consistency, one-way lifecycles and time stamps.
module LedgerRuns {
  import opened Base
  import opened Sums
  import opened Ledger
  import opened LedgerInvariant
  import opened LedgerSteps

  // ---------- Consistency ----------

  lemma StepValid(env: Env, db: Db, op: Op, now: int)
    requires Valid(db)
    ensures Valid(Step(env, db, op, now))
  {
    StepHasEffect(env, db, op, now);
    EffectValid(db, EffectOf(env, db, op, now), now);
  }

  lemma EffectValid(db: Db, e: Effect, now: int)
    requires Valid(db) && Legal(db, e)
    ensures Valid(Apply(db, e, now))
  {
    match e
    case Nothing =>
    case Hold(req) => HoldValid(db, req, now);
    case Settles(row, id, model, tokens, cost, fallback) =>
      SettleValid(db, row, id, model, tokens, cost, fallback, now);
    case Releases(ids) => ReleaseSetValid(db, ids, now);
    case Marks(id, r) => MarkValid(db, id, r);
    case Reprices(row, tokens, cost) => RepriceValid(db, row, tokens, cost, now);
    case Resets(targets, scopes) => ResetValid(db, targets, scopes, now);
    case Rejects(id, row, caller, k, model) => RejectValid(db, id, row, caller, k, model, now);
    case PutsKey(k, record) => PutKeyValid(db, k, record);
    case PutsCaller(c, enabled) =>
  }

  lemma ResetValid(db: Db, targets: set<Id>, scopes: Scopes, now: int)
    requires Valid(db)
    ensures Valid(WithReset(db, targets, scopes, now))
  {
    KeysValid(db, WithReset(db, targets, scopes, now).keys);
  }

  lemma PutKeyValid(db: Db, k: Id, record: Key)
    requires Valid(db) && CanPutKey(db, k, record)
    ensures Valid(db.(keys := db.keys[k := record]))
  {
    KeysValid(db, db.keys[k := record]);
  }

  // Conservation, one row per settlement, unique idempotency keys and referential consistency hold
  // in every reachable state.
  lemma {:induction false} RunValid(env: Env, db: Db, es: seq<Event>)
    requires Valid(db)
    ensures Valid(Run(env, db, es))
  {
    if es != [] {
      var n := |es| - 1;
      RunValid(env, db, es[..n]);
      StepValid(env, Run(env, db, es[..n]), es[n].op, es[n].at);
    }
  }

  // ---------- One-way lifecycle ----------

  ghost predicate Evolves(r: Reservation, s: Reservation) {
    && s.caller == r.caller && s.key == r.key && s.idem == r.idem && s.estimate == r.estimate
    && s.held == r.held && s.created == r.created
    && (r.status.Settled? ==> s.status.Settled?)
    && (r.status.Released? ==> s == r)
    && (r.finished.Some? ==> s.finished == r.finished)
  }

  ghost predicate RowEvolves(r: Row, s: Row) {
    s.reservation == r.reservation && s.key == r.key && s.caller == r.caller && s.created == r.created
  }

  ghost predicate ReservationsEvolve(a: Reservations, b: Reservations) {
    forall id | id in a :: id in b && Evolves(a[id], b[id])
  }

  ghost predicate RowsEvolve(a: Rows, b: Rows) {
    forall l | l in a :: l in b && RowEvolves(a[l], b[l])
  }

  ghost predicate KeysEvolve(a: Keys, b: Keys) {
    forall k | k in a :: k in b && b[k].caller == a[k].caller
  }

  // Nothing is deleted, ownership never changes, status only moves held -> settled or held ->
  // released, and a freed request slot stays free.
  ghost predicate Progress(db: Db, after: Db) {
    && ReservationsEvolve(db.reservations, after.reservations)
    && RowsEvolve(db.ledger, after.ledger) && KeysEvolve(db.keys, after.keys)
  }

  lemma StepProgress(env: Env, db: Db, op: Op, now: int)
    requires Valid(db)
    ensures Progress(db, Step(env, db, op, now))
  {
    StepHasEffect(env, db, op, now);
    EffectProgress(db, EffectOf(env, db, op, now), now);
  }

  lemma PutEvolves(a: Reservations, id: Id, r: Reservation)
    requires id in a ==> Evolves(a[id], r)
    ensures ReservationsEvolve(a, a[id := r])
  {
  }

  lemma EffectProgress(db: Db, e: Effect, now: int)
    requires Valid(db) && Legal(db, e)
    ensures Progress(db, Apply(db, e, now))
  {
    match e
    case Hold(req) => HoldProgress(db, req, now);
    case Settles(row, id, model, tokens, cost, fallback) =>
      SettleProgress(db, row, id, model, tokens, cost, fallback, now);
    case Releases(ids) => ReleaseProgress(db, ids, now);
    case Marks(id, r) => MarkProgress(db, id, r);
    case Reprices(row, tokens, cost) => RepriceProgress(db, row, tokens, cost, now);
    case Rejects(id, row, caller, k, model) => RejectProgress(db, id, row, caller, k, model, now);
    case Nothing => AdminProgress(db, db.callers, db.keys);
    case Resets(targets, scopes) => AdminProgress(db, db.callers, WithReset(db, targets, scopes, now).keys);
    case PutsKey(k, record) => AdminProgress(db, db.callers, db.keys[k := record]);
    case PutsCaller(c, enabled) => AdminProgress(db, db.callers[c := enabled], db.keys);
  }

  lemma AdminProgress(db: Db, callers: map<Id, bool>, keys: Keys)
    requires KeysEvolve(db.keys, keys)
    ensures Progress(db, db.(callers := callers, keys := keys))
  {
  }

  lemma MarkProgress(db: Db, id: Id, r: Reservation)
    requires CanMark(db, id, r)
    ensures Progress(db, db.(reservations := db.reservations[id := r]))
  {
    PutEvolves(db.reservations, id, r);
  }

  lemma HoldProgress(db: Db, req: Request, now: int)
    requires CanHold(db, req)
    ensures Progress(db, WithHold(db, req, now))
  {
    PutEvolves(db.reservations, req.id, NewHold(req, now));
  }

  lemma SettleProgress(db: Db, row: Id, id: Id, model: string, tokens: int, cost: int, fallback: bool, now: int)
    requires CanSettle(db, row, id, tokens, cost)
    ensures Progress(db, WithSettlement(db, row, id, model, tokens, cost, fallback, now))
  {
    PutEvolves(db.reservations, id, WithSettlement(db, row, id, model, tokens, cost, fallback, now).reservations[id]);
  }

  lemma RejectProgress(db: Db, id: Id, row: Id, caller: Id, k: Id, model: string, now: int)
    requires CanReject(db, id, row, caller, k)
    ensures Progress(db, WithRejection(db, id, row, caller, k, model, now))
  {
    PutEvolves(db.reservations, id, WithRejection(db, id, row, caller, k, model, now).reservations[id]);
  }

  lemma ReleaseProgress(db: Db, ids: set<Id>, now: int)
    requires CanRelease(db, ids)
    ensures Progress(db, ReleaseSet(db, ids, now))
  {
  }

  lemma RepriceProgress(db: Db, row: Id, tokens: int, cost: int, now: int)
    requires Valid(db) && CanReprice(db, row, tokens, cost)
    ensures Progress(db, WithReprice(db, row, tokens, cost, now))
  {
    var before, after := db.ledger[row], WithReprice(db, row, tokens, cost, now);
    assert RowFits(db.reservations, before);
    PutEvolves(db.reservations, before.reservation, after.reservations[before.reservation]);
  }

  lemma ProgressTransitive(a: Db, b: Db, c: Db)
    requires Progress(a, b) && Progress(b, c)
    ensures Progress(a, c)
  {
    forall id | id in a.reservations ensures id in c.reservations && Evolves(a.reservations[id], c.reservations[id]) {
      assert Evolves(a.reservations[id], b.reservations[id]) && Evolves(b.reservations[id], c.reservations[id]);
    }
    forall l | l in a.ledger ensures l in c.ledger && RowEvolves(a.ledger[l], c.ledger[l]) {
      assert RowEvolves(a.ledger[l], b.ledger[l]) && RowEvolves(b.ledger[l], c.ledger[l]);
    }
  }

  lemma {:induction false} RunProgress(env: Env, db: Db, es: seq<Event>)
    requires Valid(db)
    ensures Progress(db, Run(env, db, es))
  {
    if es != [] {
      var n := |es| - 1;
      RunProgress(env, db, es[..n]);
      RunValid(env, db, es[..n]);
      StepProgress(env, Run(env, db, es[..n]), es[n].op, es[n].at);
      ProgressTransitive(db, Run(env, db, es[..n]), Run(env, db, es));
    }
  }

  // Replaying a reserve after any further steps changes nothing; it returns the first reservation
  // or reports a conflict when the estimate, the amount or the key differ.
  lemma ReplayedReserve(env: Env, db: Db, id: Id, es: seq<Event>, req: Request, now: int)
    requires Valid(db) && id in db.reservations && req.Complete()
    requires db.reservations[id].caller == req.caller && db.reservations[id].idem == req.idem
    ensures var later := Run(env, db, es);
            var r := db.reservations[id];
            && id in later.reservations && Evolves(r, later.reservations[id])
            && Reserve(env, later, req, now) ==
               (later, if r.estimate == req.estimate && r.held == req.amount && r.key == req.key
                       then Ok(later.reservations[id]) else Err(IdempotencyConflict))
  {
    RunProgress(env, db, es);
    RunValid(env, db, es);
    var later := Run(env, db, es);
    assert Evolves(db.reservations[id], later.reservations[id]);
    assert HasIdem(later, req.caller, req.idem);
    var found :| found in later.reservations && later.reservations[found].caller == req.caller
                 && later.reservations[found].idem == req.idem && Reserve(env, later, req, now)
                 == (later, if later.reservations[found].estimate != req.estimate
                   || later.reservations[found].held != req.amount || later.reservations[found].key != req.key
                            then Err(IdempotencyConflict) else Ok(later.reservations[found]));
    assert SameIdem(later.reservations[found], later.reservations[id]);
  }

  // A settled reservation stays settled: settling again, at any cost, changes nothing and succeeds;
  // releasing it fails.
  lemma RepeatedSettle(env: Env, db: Db, id: Id, es: seq<Event>, row: Id, model: string, tokens: int, cost: int,
                       now: int)
    requires Valid(db) && id in db.reservations && db.reservations[id].status.Settled?
    requires id != "" && model != "" && cost >= 0 && tokens >= 0
    ensures var later := Run(env, db, es);
            && id in later.reservations
            && Settle(later, row, id, model, tokens, cost, false, now) == (later, Ok(later.reservations[id]))
            && Release(later, id, now) == (later, Err(ReservationFinalized))
  {
    RunProgress(env, db, es);
    assert Evolves(db.reservations[id], Run(env, db, es).reservations[id]);
  }

  // A released reservation stays exactly as it was: releasing again succeeds, settling fails.
  lemma RepeatedRelease(env: Env, db: Db, id: Id, es: seq<Event>, row: Id, model: string, tokens: int, cost: int,
                        now: int)
    requires Valid(db) && id in db.reservations && db.reservations[id].status.Released?
    requires id != "" && model != "" && cost >= 0 && tokens >= 0
    ensures var later := Run(env, db, es);
            && id in later.reservations && later.reservations[id] == db.reservations[id]
            && Release(later, id, now) == (later, Ok(db.reservations[id]))
            && Settle(later, row, id, model, tokens, cost, false, now) == (later, Err(ReservationFinalized))
  {
    RunProgress(env, db, es);
    assert Evolves(db.reservations[id], Run(env, db, es).reservations[id]);
  }

  // A heartbeat protects a hold: touched at or after the deadline it survives the stale release that
  // takes every other held reservation not updated since.
  lemma TouchSurvivesStaleRelease(db: Db, id: Id, now: int, olderThan: int, later: int, other: Id)
    requires Valid(db) && id != "" && id in db.reservations && db.reservations[id].status.Held? && olderThan <= now
    requires other in db.reservations && other != id && db.reservations[other].status.Held?
    ensures var after := ReleaseStale(Touch(db, id, now), olderThan, later);
            && id in after.reservations && after.reservations[id] == db.reservations[id].(updated := now)
            && other in after.reservations
            && (after.reservations[other].status.Released? <==> db.reservations[other].updated < olderThan)
            && (after.reservations[other].status.Held? ==> after.reservations[other] == db.reservations[other])
  {
    var touched := Touch(db, id, now);
    assert id !in StaleIds(touched, olderThan);
    assert other in StaleIds(touched, olderThan) <==> db.reservations[other].updated < olderThan;
  }

  // ---------- Revocation ----------

  ghost predicate Revoked(db: Db, k: Id) {
    k in db.keys && db.keys[k].revoked
  }

  // No request is held for a revoked key.
  lemma RevokedRefused(env: Env, db: Db, req: Request, now: int)
    requires Revoked(db, req.key)
    ensures Reserve(env, db, req, now).0 == db
  {
    assert EarlyRefusal(env, db, req, now) == Some(KeyRevoked);
  }

  // No step lifts a revocation.
  lemma StepRevoked(env: Env, db: Db, op: Op, now: int, k: Id)
    requires Valid(db) && Revoked(db, k)
    ensures Revoked(Step(env, db, op, now), k)
  {
    StepHasEffect(env, db, op, now);
    EffectRevoked(db, EffectOf(env, db, op, now), now, k);
  }

  lemma EffectRevoked(db: Db, e: Effect, now: int, k: Id)
    requires Revoked(db, k) && Legal(db, e) && (e.PutsKey? && e.key == k ==> e.record.revoked)
    ensures Revoked(Apply(db, e, now), k)
  {
  }

  // Revocation is final: over any run a revoked key stays revoked and gets no new reservation; what
  // it still holds was held before.
  lemma {:induction false} RunRevoked(env: Env, db: Db, es: seq<Event>, k: Id)
    requires Valid(db) && Revoked(db, k)
    ensures Revoked(Run(env, db, es), k)
    ensures forall id | id in Run(env, db, es).reservations && HeldFor(Run(env, db, es), id, k) ::
            id in db.reservations && HeldFor(db, id, k)
  {
    if es != [] {
      var n := |es| - 1;
      RunRevoked(env, db, es[..n], k);
      RunValid(env, db, es[..n]);
      var before := Run(env, db, es[..n]);
      StepRevoked(env, before, es[n].op, es[n].at, k);
      NoNewHold(env, before, es[n].op, es[n].at, k);
    }
  }

  ghost predicate HeldFor(db: Db, id: Id, k: Id)
    requires id in db.reservations
  {
    db.reservations[id].key == k && db.reservations[id].status.Held?
  }

  lemma NoNewHold(env: Env, db: Db, op: Op, now: int, k: Id)
    requires Valid(db) && Revoked(db, k)
    ensures var after := Step(env, db, op, now);
            forall id | id in after.reservations && HeldFor(after, id, k) :: id in db.reservations && HeldFor(db, id, k)
  {
    StepHasEffect(env, db, op, now);
    if op.DoReserve? && op.req.key == k {
      RevokedRefused(env, db, op.req, now);
    }
    EffectHolds(db, EffectOf(env, db, op, now), now, k);
  }

  // Only a hold makes a reservation held.
  lemma EffectHolds(db: Db, e: Effect, now: int, k: Id)
    requires Valid(db) && Legal(db, e)
    ensures var after := Apply(db, e, now);
            forall id | id in after.reservations && HeldFor(after, id, k) ::
              (e.Hold? && e.req.id == id && e.req.key == k) || (id in db.reservations && HeldFor(db, id, k))
  {
    if e.Reprices? {
      assert RowFits(db.reservations, db.ledger[e.row]);
    }
  }

  // ---------- Time stamps ----------

  ghost predicate NotAfter(t: Option<int>, clock: int) {
    t.Some? ==> t.value <= clock
  }

  ghost predicate KeyTimed(key: Key, clock: int) {
    && NotAfter(key.totalReset, clock) && NotAfter(key.dailyReset, clock)
    && NotAfter(key.weeklyReset, clock) && NotAfter(key.monthlyReset, clock)
  }

  ghost predicate ReservationTimed(r: Reservation, clock: int) {
    r.created <= clock && r.updated <= clock && NotAfter(r.finished, clock)
  }

  ghost predicate ReservationsTimed(reservations: Reservations, clock: int) {
    forall id | id in reservations :: ReservationTimed(reservations[id], clock)
  }

  ghost predicate RowsTimed(ledger: Rows, clock: int) {
    forall l | l in ledger :: ledger[l].created <= clock
  }

  ghost predicate KeysTimed(keys: Keys, clock: int) {
    forall k | k in keys :: KeyTimed(keys[k], clock)
  }

  // No stored time stamp lies in the future.
  ghost predicate Timed(db: Db, clock: int) {
    ReservationsTimed(db.reservations, clock) && RowsTimed(db.ledger, clock) && KeysTimed(db.keys, clock)
  }

  lemma StepTimed(env: Env, db: Db, op: Op, clock: int, now: int)
    requires Valid(db) && Timed(db, clock) && clock <= now
    ensures Timed(Step(env, db, op, now), now)
  {
    StepHasEffect(env, db, op, now);
    MarkTimed(env, db, op, clock, now);
    EffectTimed(db, EffectOf(env, db, op, now), clock, now);
  }

  lemma MarkTimed(env: Env, db: Db, op: Op, clock: int, now: int)
    requires Timed(db, clock) && clock <= now
    ensures var e := EffectOf(env, db, op, now); e.Marks? ==> ReservationTimed(e.r, now)
  {
    var e := EffectOf(env, db, op, now);
    if e.Marks? {
      assert ReservationTimed(db.reservations[e.id], clock);
    }
  }

  lemma PutTimed(reservations: Reservations, id: Id, r: Reservation, clock: int, now: int)
    requires ReservationsTimed(reservations, clock) && clock <= now && ReservationTimed(r, now)
    ensures ReservationsTimed(reservations[id := r], now)
  {
  }

  lemma PutRowTimed(ledger: Rows, l: Id, row: Row, clock: int, now: int)
    requires RowsTimed(ledger, clock) && clock <= now && row.created <= now
    ensures RowsTimed(ledger[l := row], now)
  {
  }

  lemma PutKeyTimed(keys: Keys, k: Id, key: Key, clock: int, now: int)
    requires KeysTimed(keys, clock) && clock <= now && KeyTimed(key, now)
    ensures KeysTimed(keys[k := key], now)
  {
  }

  lemma ReleaseTimed(db: Db, ids: set<Id>, clock: int, now: int)
    requires Timed(db, clock) && clock <= now
    ensures Timed(ReleaseSet(db, ids, now), now)
  {
  }

  lemma ResetTimed(db: Db, targets: set<Id>, scopes: Scopes, clock: int, now: int)
    requires Timed(db, clock) && clock <= now
    ensures Timed(WithReset(db, targets, scopes, now), now)
  {
  }

  lemma EffectTimed(db: Db, e: Effect, clock: int, now: int)
    requires Legal(db, e) && Timed(db, clock) && clock <= now && (e.Marks? ==> ReservationTimed(e.r, now))
    ensures Timed(Apply(db, e, now), now)
  {
    var after := Apply(db, e, now);
    match e
    case Hold(req) =>
      PutTimed(db.reservations, req.id, NewHold(req, now), clock, now);
      PutKeyTimed(db.keys, req.key, after.keys[req.key], clock, now);
    case Settles(row, id, model, tokens, cost, fallback) =>
      var k := db.reservations[id].key;
      PutTimed(db.reservations, id, after.reservations[id], clock, now);
      PutRowTimed(db.ledger, row, after.ledger[row], clock, now);
      PutKeyTimed(db.keys, k, after.keys[k], clock, now);
    case Releases(ids) => ReleaseTimed(db, ids, clock, now);
    case Marks(id, r) => PutTimed(db.reservations, id, r, clock, now);
    case Reprices(row, tokens, cost) =>
      var before := db.ledger[row];
      PutTimed(db.reservations, before.reservation, after.reservations[before.reservation], clock, now);
      PutRowTimed(db.ledger, row, after.ledger[row], clock, now);
      PutKeyTimed(db.keys, before.key, after.keys[before.key], clock, now);
    case Resets(targets, scopes) => ResetTimed(db, targets, scopes, clock, now);
    case Rejects(id, row, caller, k, model) =>
      PutTimed(db.reservations, id, after.reservations[id], clock, now);
      PutRowTimed(db.ledger, row, after.ledger[row], clock, now);
    case PutsKey(k, record) => PutKeyTimed(db.keys, k, record, clock, now);
    case _ =>
  }

  lemma {:induction false} RunTimed(env: Env, db: Db, es: seq<Event>, clock: int)
    requires Valid(db) && Timed(db, clock) && Clocked(clock, es)
    ensures Timed(Run(env, db, es), ClockAfter(clock, es))
  {
    if es != [] {
      var n := |es| - 1;
      RunTimed(env, db, es[..n], clock);
      RunValid(env, db, es[..n]);
      StepTimed(env, Run(env, db, es[..n]), es[n].op, ClockAfter(clock, es[..n]), es[n].at);
    }
  }
}
