// The store steps as one transition function, each step reduced to its effect on the tables, and
// runs of steps under a nondecreasing clock.
module LedgerSteps {
  import opened Base
  import opened Calendar
  import opened Sums
  import opened Ledger
  import opened LedgerInvariant

  datatype Op =
    | DoReserve(req: Request)
    | DoSettle(row: Id, reservation: Id, model: string, tokens: int, cost: int, fallback: bool)
    | DoRelease(reservation: Id)
    | DoReleaseBatch(ids: seq<Id>)
    | DoReleaseStale(olderThan: int)
    | DoFinish(reservation: Id)
    | DoTouch(reservation: Id)
    | DoReprice(row: Id, tokens: int, cost: int)
    | DoReset(ids: seq<Id>, all: bool, scopes: Scopes)
    | DoReject(attempt: NewId, row: Id, caller: Id, key: Id, model: string)
    | DoPutCaller(caller: Id, enabled: bool)
    | DoCreateKey(key: Id, caller: Id, policy: Policy)
    | DoSetPolicy(key: Id, policy: Policy)
    | DoRevoke(key: Id)

  ghost function Step(env: Env, db: Db, op: Op, now: int): Db {
    match op
    case DoReserve(req) => Reserve(env, db, req, now).0
    case DoSettle(row, id, model, tokens, cost, fallback) => Settle(db, row, id, model, tokens, cost, fallback, now).0
    case DoRelease(id) => Release(db, id, now).0
    case DoReleaseBatch(ids) => ReleaseBatch(db, ids, now)
    case DoReleaseStale(olderThan) => ReleaseStale(db, olderThan, now)
    case DoFinish(id) => FinishExecution(db, id, now)
    case DoTouch(id) => Touch(db, id, now)
    case DoReprice(row, tokens, cost) => Reprice(db, row, tokens, cost, now).0
    case DoReset(ids, all, scopes) => ResetSpend(db, ids, all, scopes, now).0
    case DoReject(id, row, caller, k, model) => Reject(db, id, row, caller, k, model, now).0
    case DoPutCaller(c, enabled) => PutCaller(db, c, enabled)
    case DoCreateKey(k, c, policy) => CreateKey(db, k, c, policy)
    case DoSetPolicy(k, policy) => SetPolicy(db, k, policy)
    case DoRevoke(k) => RevokeKey(db, k)
  }

  datatype Event = Event(op: Op, at: int)

  ghost function Run(env: Env, db: Db, es: seq<Event>): Db {
    if es == [] then db else Step(env, Run(env, db, es[..|es| - 1]), es[|es| - 1].op, es[|es| - 1].at)
  }

  function ClockAfter(clock: int, es: seq<Event>): int {
    if es == [] then clock else es[|es| - 1].at
  }

  // The clock starts at `clock` and never goes back.
  ghost predicate Clocked(clock: int, es: seq<Event>) {
    es != [] ==> Clocked(clock, es[..|es| - 1]) && ClockAfter(clock, es[..|es| - 1]) <= es[|es| - 1].at
  }

  // ---------- Effects: what a step did, without the checks that led to it ----------

  datatype Effect =
    | Nothing
    | Hold(req: Request)
    | Settles(row: Id, id: Id, model: string, tokens: int, cost: int, fallback: bool)
    | Releases(ids: set<Id>)
    | Marks(id: Id, r: Reservation)
    | Reprices(row: Id, tokens: int, cost: int)
    | Resets(targets: set<Id>, scopes: Scopes)
    | Rejects(attempt: NewId, row: Id, caller: Id, key: Id, model: string)
    | PutsKey(key: Id, record: Key)
    | PutsCaller(caller: Id, enabled: bool)

  // A new key without counters, or an existing key with only its policy or revocation changed.
  ghost predicate CanPutKey(db: Db, k: Id, record: Key) {
    && record.policy.Valid()
    && if k in db.keys then record == db.keys[k].(policy := record.policy, revoked := record.revoked)
       else record == Key(record.caller, false, record.policy, 0, 0, None, None, None, None)
  }

  ghost predicate Legal(db: Db, e: Effect) {
    match e
    case Nothing => true
    case Hold(req) => CanHold(db, req)
    case Settles(row, id, model, tokens, cost, fallback) => CanSettle(db, row, id, tokens, cost)
    case Releases(ids) => CanRelease(db, ids)
    case Marks(id, r) => CanMark(db, id, r)
    case Reprices(row, tokens, cost) => CanReprice(db, row, tokens, cost)
    case Resets(targets, scopes) => true
    case Rejects(id, row, caller, k, model) => CanReject(db, id, row, caller, k)
    case PutsKey(k, record) => CanPutKey(db, k, record)
    case PutsCaller(c, enabled) => true
  }

  // A hold went through every check of the key.
  ghost predicate Admitted(env: Env, db: Db, e: Effect, now: int) {
    e.Hold? ==> Refusal(env, db, e.req, now).None?
  }

  ghost function Apply(db: Db, e: Effect, now: int): Db
    requires Legal(db, e)
  {
    match e
    case Nothing => db
    case Hold(req) => WithHold(db, req, now)
    case Settles(row, id, model, tokens, cost, fallback) =>
      WithSettlement(db, row, id, model, tokens, cost, fallback, now)
    case Releases(ids) => ReleaseSet(db, ids, now)
    case Marks(id, r) => db.(reservations := db.reservations[id := r])
    case Reprices(row, tokens, cost) => WithReprice(db, row, tokens, cost, now)
    case Resets(targets, scopes) => WithReset(db, targets, scopes, now)
    case Rejects(id, row, caller, k, model) => WithRejection(db, id, row, caller, k, model, now)
    case PutsKey(k, record) => db.(keys := db.keys[k := record])
    case PutsCaller(c, enabled) => PutCaller(db, c, enabled)
  }

  ghost function EffectOf(env: Env, db: Db, op: Op, now: int): Effect {
    match op
    case DoReserve(req) =>
      if req.Complete() && !HasIdem(db, req.caller, req.idem) && Refusal(env, db, req, now).None?
      then Hold(req) else Nothing
    case DoSettle(row, id, model, tokens, cost, fallback) =>
      if id != "" && model != "" && CanSettle(db, row, id, tokens, cost)
      then Settles(row, id, model, tokens, cost, fallback) else Nothing
    case DoRelease(id) =>
      if id != "" && CanRelease(db, {id}) then Releases({id}) else Nothing
    case DoReleaseBatch(ids) =>
      if BatchFailure(db, ids).None? then Releases(IdSet(ids)) else Nothing
    case DoReleaseStale(olderThan) => Releases(StaleIds(db, olderThan))
    case DoFinish(id) =>
      if FinishExecution(db, id, now) != db then Marks(id, FinishExecution(db, id, now).reservations[id]) else Nothing
    case DoTouch(id) =>
      if Touch(db, id, now) != db then Marks(id, Touch(db, id, now).reservations[id]) else Nothing
    case DoReprice(row, tokens, cost) =>
      if row != "" && CanReprice(db, row, tokens, cost) then Reprices(row, tokens, cost) else Nothing
    case DoReset(ids, all, scopes) =>
      if ResetSpend(db, ids, all, scopes, now).1.Ok? then Resets(ResetTargets(db, ids, all), scopes) else Nothing
    case DoReject(id, row, caller, k, model) =>
      if caller != "" && k != "" && model != "" && CanReject(db, id, row, caller, k)
      then Rejects(id, row, caller, k, model) else Nothing
    case DoPutCaller(c, enabled) => PutsCaller(c, enabled)
    case DoCreateKey(k, c, policy) =>
      if k in db.keys || c !in db.callers || !policy.Valid() then Nothing
      else PutsKey(k, Key(c, false, policy, 0, 0, None, None, None, None))
    case DoSetPolicy(k, policy) =>
      if k !in db.keys || !policy.Valid() then Nothing else PutsKey(k, db.keys[k].(policy := policy))
    case DoRevoke(k) =>
      if k !in db.keys then Nothing
      else PutsKey(k, db.keys[k].(revoked := true, policy := db.keys[k].policy.(enabled := false)))
  }

  lemma ReserveHasEffect(env: Env, db: Db, req: Request, now: int)
    ensures var e := EffectOf(env, db, DoReserve(req), now);
            Legal(db, e) && Admitted(env, db, e, now) && Reserve(env, db, req, now).0 == Apply(db, e, now)
  {
  }

  lemma SettleHasEffect(env: Env, db: Db, row: Id, id: Id, model: string, tokens: int, cost: int, fallback: bool,
                        now: int)
    ensures var e := EffectOf(env, db, DoSettle(row, id, model, tokens, cost, fallback), now);
            Legal(db, e) && Settle(db, row, id, model, tokens, cost, fallback, now).0 == Apply(db, e, now)
  {
  }

  lemma ReleaseHasEffect(env: Env, db: Db, op: Op, now: int)
    requires op.DoRelease? || op.DoReleaseBatch? || op.DoReleaseStale?
    ensures var e := EffectOf(env, db, op, now);
            Legal(db, e) && Step(env, db, op, now) == Apply(db, e, now)
  {
    if op.DoReleaseBatch? && BatchFailure(db, op.ids).None? {
      BatchSucceeds(db, op.ids);
      forall id | id in IdSet(op.ids) ensures id in db.reservations && db.reservations[id].status.Held? {
        var i :| 0 <= i < |op.ids| && op.ids[i] == id;
      }
    }
  }

  lemma AdminHasEffect(env: Env, db: Db, op: Op, now: int)
    requires KeysFit(db.keys)
    requires op.DoPutCaller? || op.DoCreateKey? || op.DoSetPolicy? || op.DoRevoke? || op.DoReset?
    ensures var e := EffectOf(env, db, op, now);
            Legal(db, e) && !e.Hold? && Step(env, db, op, now) == Apply(db, e, now)
  {
  }

  // Every step is its effect, and the effect is legal.
  lemma StepHasEffect(env: Env, db: Db, op: Op, now: int)
    requires KeysFit(db.keys)
    ensures var e := EffectOf(env, db, op, now);
            Legal(db, e) && Admitted(env, db, e, now) && Step(env, db, op, now) == Apply(db, e, now)
  {
    match op
    case DoReserve(req) => ReserveHasEffect(env, db, req, now);
    case DoSettle(row, id, model, tokens, cost, fallback) =>
      SettleHasEffect(env, db, row, id, model, tokens, cost, fallback, now);
    case DoRelease(_) => ReleaseHasEffect(env, db, op, now);
    case DoReleaseBatch(_) => ReleaseHasEffect(env, db, op, now);
    case DoReleaseStale(_) => ReleaseHasEffect(env, db, op, now);
    case DoFinish(_) =>
    case DoTouch(_) =>
    case DoReprice(_, _, _) =>
    case DoReject(_, _, _, _, _) =>
    case _ => AdminHasEffect(env, db, op, now);
  }
}
