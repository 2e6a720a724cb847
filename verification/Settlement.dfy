// How a request ends (internal/service/reserve.go, attempt.go, execution.go and
// internal/plugin/attempt.go, execute.go): the store and the auth desk driven together, and the
// guarantee that no way of ending leaves a hold behind.
module Settlement {
  import opened Base
  import opened Sums
  import Ledger
  import opened LedgerInvariant
  import LedgerSteps
  import LedgerRuns
  import AuthCapture
  import AuthDesk
  import Store

  type Db = Ledger.Db
  type Id = string

  // settlement.missing_usage
  datatype Missing = ReleaseHold | SettleFallback

  // What settlement reads of a reserve plan. `price` is the cost of a usage, None when pricing refuses
  // it; `images` is that of the planned images of a per-image plan.
  datatype Plan = Plan(model: string, price: nat -> Option<nat>, images: Option<Option<nat>>, unpriced: bool)

  // An unpriced plan charges nothing for what can be priced.
  function Charged(plan: Plan, cost: Option<nat>): Option<nat> {
    if cost.Some? && plan.unpriced then Some(0) else cost
  }

  // ---------- What ending means for the ledger ----------

  // A usage with its cost, or None when pricing fails.
  ghost function SettleUsage(db: Db, row: Id, id: Id, model: string, usage: nat, cost: Option<nat>,
                             now: int): (Db, bool)
  {
    if cost.None? then (db, false)
    else
      var (after, r) := Ledger.Settle(db, row, id, model, usage, cost.value, false, now);
      (after, r.Ok?)
  }

  // SettleFromUsage: usage the host reported, else usage in the response, else the policy.
  ghost function FromUsage(db: Db, row: Id, id: Id, plan: Plan, captured: Option<nat>, parsed: Option<nat>,
                           missing: Missing, now: int): (Db, bool)
  {
    var finished := Ledger.FinishExecution(db, id, now);
    var usage := Chosen(captured, parsed);
    if usage.Some?
    then SettleUsage(finished, row, id, plan.model, usage.value, Charged(plan, plan.price(usage.value)), now)
    else if missing.ReleaseHold? then
      var (after, r) := Ledger.Release(finished, id, now);
      (after, r.Ok?)
    else if plan.images.Some? then SettleUsage(finished, row, id, plan.model, 0, Charged(plan, plan.images.value), now)
    else
      var (after, r) := Ledger.Settle(finished, row, id, plan.model, 0, 0, true, now);
      (after, r.Ok?)
  }

  function Chosen(captured: Option<nat>, parsed: Option<nat>): Option<nat> {
    if captured.Some? then captured else parsed
  }

  // The fallback of every caller: what could not be settled is released.
  ghost function OrRelease(result: (Db, bool), id: Id, now: int): Db {
    if result.1 then result.0 else Ledger.Release(result.0, id, now).0
  }

  // SettleZeroCostAttempt: the request's model, else the reservation's.
  ghost function ZeroCostAttempt(db: Db, row: Id, id: Id, model: string, reserved: string, now: int): (Db, bool) {
    var finished := Ledger.FinishExecution(db, id, now);
    var (after, r) := Ledger.Settle(finished, row, id, if model == "" then reserved else model, 0, 0, false, now);
    (after, r.Ok?)
  }

  // ---------- Nothing stays held ----------

  ghost predicate IsHeld(db: Db, id: Id) {
    id != "" && id in db.reservations && db.reservations[id].status.Held?
  }

  // The hold is gone from the reservation and from its key, the spend recorded is `cost`, and every
  // other reservation is as it was.
  ghost predicate Ended(before: Db, after: Db, id: Id, cost: nat) {
    && id in before.reservations && id in after.reservations
    && var r := before.reservations[id];
    && (after.reservations[id].status.Settled? || after.reservations[id].status.Released?)
    && r.key in before.keys && r.key in after.keys
    && after.keys[r.key].held == before.keys[r.key].held - r.held
    && after.keys[r.key].settled == before.keys[r.key].settled + cost
    && (forall k | k in before.keys && k != r.key :: k in after.keys && after.keys[k] == before.keys[k])
    && (forall x | x in before.reservations && x != id ::
      x in after.reservations && after.reservations[x] == before.reservations[x])
  }

  // What a request comes to: its hold freed, or a row recorded.
  datatype Outcome = Freed | Recorded(tokens: nat, cost: nat)

  // The whole effect of an outcome on the ledger.
  ghost predicate EndsAs(before: Db, after: Db, row: Id, id: Id, outcome: Outcome) {
    match outcome
    case Freed =>
      Ended(before, after, id, 0) && after.reservations[id].status.Released? && after.ledger == before.ledger
    case Recorded(tokens, cost) =>
      && Ended(before, after, id, cost) && after.reservations[id].status.Settled?
      && row !in before.ledger && row in after.ledger && after.ledger == before.ledger[row := after.ledger[row]]
      && var entry := after.ledger[row];
         entry.reservation == id && entry.tokens == tokens && entry.cost == cost
         && entry.key == before.reservations[id].key && entry.caller == before.reservations[id].caller
  }

  lemma FinishKeepsHold(db: Db, id: Id, now: int)
    requires Valid(db) && IsHeld(db, id)
    ensures var f := Ledger.FinishExecution(db, id, now);
            && Valid(f) && IsHeld(f, id) && f.keys == db.keys && f.ledger == db.ledger
            && f.reservations[id] == db.reservations[id].(finished := f.reservations[id].finished)
            && forall x | x in db.reservations && x != id ::
              x in f.reservations && f.reservations[x] == db.reservations[x]
  {
    if db.reservations[id].finished.None? {
      MarkValid(db, id, db.reservations[id].(finished := Some(now)));
    }
  }

  // The tables after the writes of a settlement, and of a release.
  lemma SettledTables(db: Db, row: Id, id: Id, model: string, usage: nat, cost: nat, fallback: bool, now: int)
    requires id in db.reservations && db.reservations[id].key in db.keys && row !in db.ledger
    ensures EndsAs(db, Ledger.WithSettlement(db, row, id, model, usage, cost, fallback, now), row, id,
            Recorded(usage, cost))
  {
  }

  lemma ReleasedTables(db: Db, row: Id, id: Id, now: int)
    requires id in db.reservations && db.reservations[id].key in db.keys
    ensures var r := db.reservations[id];
            EndsAs(db, db.(reservations := db.reservations[id := Ledger.ReleaseReservation(r, now)],
                           keys := db.keys[r.key := db.keys[r.key].(held := db.keys[r.key].held - r.held)]),
                   row, id, Freed)
  {
  }

  lemma SettleEnds(db: Db, row: Id, id: Id, model: string, usage: nat, cost: nat, fallback: bool, now: int)
    requires Valid(db) && IsHeld(db, id)
    ensures var (after, r) := Ledger.Settle(db, row, id, model, usage, cost, fallback, now);
            if model != "" && row !in db.ledger
            then r.Ok? && Valid(after) && EndsAs(db, after, row, id, Recorded(usage, cost))
            else r.Err? && after == db
  {
    if model != "" {
      Store.SettleHeld(db, row, id, model, usage, cost, fallback, now);
      if row !in db.ledger {
        SettledTables(db, row, id, model, usage, cost, fallback, now);
      }
    }
  }

  // The store never refuses to release a held reservation.
  lemma ReleaseEnds(db: Db, row: Id, id: Id, now: int)
    requires Valid(db) && IsHeld(db, id)
    ensures var (after, r) := Ledger.Release(db, id, now);
            r.Ok? && Valid(after) && EndsAs(db, after, row, id, Freed)
  {
    Store.ReleaseOneRow(db, id, now);
    ReleaseSetValid(db, {id}, now);
    ReleasedTables(db, row, id, now);
  }

  // A finished execution ends like an unfinished one.
  lemma EndsAfterFinish(db: Db, after: Db, row: Id, id: Id, outcome: Outcome, now: int)
    requires Valid(db) && IsHeld(db, id) && EndsAs(Ledger.FinishExecution(db, id, now), after, row, id, outcome)
    ensures EndsAs(db, after, row, id, outcome)
  {
    FinishKeepsHold(db, id, now);
  }

  // What a zero-cost attempt comes to: the store refuses it only without any model name or with a
  // taken ledger id.
  function AttemptOutcome(db: Db, row: Id, model: string, reserved: string): Outcome {
    if (model == "" && reserved == "") || row in db.ledger then Freed else Recorded(0, 0)
  }

  // Whatever failed after the reserve, the zero-cost attempt or else the release ends it.
  lemma AttemptEnds(db: Db, row: Id, id: Id, model: string, reserved: string, now: int)
    requires Valid(db) && IsHeld(db, id)
    ensures var after := OrRelease(ZeroCostAttempt(db, row, id, model, reserved, now), id, now);
            Valid(after) && EndsAs(db, after, row, id, AttemptOutcome(db, row, model, reserved))
  {
    var finished := Ledger.FinishExecution(db, id, now);
    FinishKeepsHold(db, id, now);
    SettleOrRelease(finished, row, id, if model == "" then reserved else model, 0, 0, false, now);
    var after := OrRelease(ZeroCostAttempt(db, row, id, model, reserved, now), id, now);
    EndsAfterFinish(db, after, row, id, AttemptOutcome(db, row, model, reserved), now);
  }

  // The tokens and the cost a settlement records, None where it records nothing: host usage before
  // the response's, then the policy; a per-image plan without usage charges its images.
  function Due(plan: Plan, captured: Option<nat>, parsed: Option<nat>, missing: Missing): Option<(nat, nat)> {
    var usage := Chosen(captured, parsed);
    var cost := if usage.Some? then Charged(plan, plan.price(usage.value))
                else if missing.ReleaseHold? then None
                else if plan.images.Some? then Charged(plan, plan.images.value)
                else Some(0);
    if cost.None? then None else Some((if usage.Some? then usage.value else 0, cost.value))
  }

  function UsageOutcome(db: Db, row: Id, plan: Plan, captured: Option<nat>, parsed: Option<nat>,
                        missing: Missing): Outcome
  {
    var due := Due(plan, captured, parsed, missing);
    if due.None? || plan.model == "" || row in db.ledger then Freed else Recorded(due.value.0, due.value.1)
  }

  // The settlement of a finished stream, with the caller's release on error, always ends the
  // reservation: it is settled for what is due unless pricing failed, the policy releases requests
  // without usage or the store refuses the row.
  lemma UsageEnds(db: Db, row: Id, id: Id, plan: Plan, captured: Option<nat>, parsed: Option<nat>, missing: Missing,
                  now: int)
    requires Valid(db) && IsHeld(db, id)
    ensures var after := OrRelease(FromUsage(db, row, id, plan, captured, parsed, missing, now), id, now);
            Valid(after) && EndsAs(db, after, row, id, UsageOutcome(db, row, plan, captured, parsed, missing))
  {
    var finished, due := Ledger.FinishExecution(db, id, now), Due(plan, captured, parsed, missing);
    FinishKeepsHold(db, id, now);
    if due.Some? {
      var fallback := Chosen(captured, parsed).None? && plan.images.None?;
      FromUsageSettles(db, row, id, plan, captured, parsed, missing, now);
      SettleOrRelease(finished, row, id, plan.model, due.value.0, due.value.1, fallback, now);
    } else {
      FromUsageFrees(db, row, id, plan, captured, parsed, missing, now);
      ReleaseEnds(finished, row, id, now);
    }
    var after := OrRelease(FromUsage(db, row, id, plan, captured, parsed, missing, now), id, now);
    EndsAfterFinish(db, after, row, id, UsageOutcome(db, row, plan, captured, parsed, missing), now);
  }

  lemma SettleOrRelease(db: Db, row: Id, id: Id, model: string, usage: nat, cost: nat, fallback: bool, now: int)
    requires Valid(db) && IsHeld(db, id)
    ensures var (settled, r) := Ledger.Settle(db, row, id, model, usage, cost, fallback, now);
            var after := OrRelease((settled, r.Ok?), id, now);
            && Valid(after)
            && EndsAs(db, after, row, id, if model == "" || row in db.ledger then Freed else Recorded(usage, cost))
  {
    SettleEnds(db, row, id, model, usage, cost, fallback, now);
    ReleaseEnds(db, row, id, now);
  }

  lemma FromUsageFrees(db: Db, row: Id, id: Id, plan: Plan, captured: Option<nat>, parsed: Option<nat>,
                       missing: Missing, now: int)
    requires Valid(db) && IsHeld(db, id) && Due(plan, captured, parsed, missing).None?
    ensures OrRelease(FromUsage(db, row, id, plan, captured, parsed, missing, now), id, now)
         == Ledger.Release(Ledger.FinishExecution(db, id, now), id, now).0
  {
    FinishKeepsHold(db, id, now);
    ReleaseEnds(Ledger.FinishExecution(db, id, now), row, id, now);
  }

  lemma FromUsageSettles(db: Db, row: Id, id: Id, plan: Plan, captured: Option<nat>, parsed: Option<nat>,
                         missing: Missing, now: int)
    requires Due(plan, captured, parsed, missing).Some?
    ensures var due := Due(plan, captured, parsed, missing).value;
            var fallback := Chosen(captured, parsed).None? && plan.images.None?;
            var (after, r) := Ledger.Settle(Ledger.FinishExecution(db, id, now), row, id, plan.model, due.0, due.1,
              fallback, now);
            FromUsage(db, row, id, plan, captured, parsed, missing, now) == (after, r.Ok?)
  {
  }

  // ---------- What ending means for the auth desk ----------

  function Prune(s: AuthCapture.State, now: int): AuthCapture.State {
    s.(pending := AuthCapture.Pruned(s.pending, now))
  }

  // settleMissingUsage publishes the ledger id only together with the row.
  function DeskAfterMissing(s: AuthCapture.State, row: Id, id: Id, ok: bool, now: int): AuthCapture.State {
    var pruned := Prune(s, now);
    if ok && id in pruned.pending
    then pruned.(pending := AuthCapture.Store(pruned.pending, id, AuthCapture.AfterMissing(pruned.pending[id], row)))
    else pruned
  }

  function DeskAfterUsage(s: AuthCapture.State, row: Id, id: Id, plan: Plan, parsed: Option<nat>,
                          missing: Missing, ok: bool, now: int): AuthCapture.State
  {
    var pruned := Prune(AuthCapture.Finish(s, id), now);
    var captured := AuthCapture.CapturedUsage(pruned.pending, id);
    var usage := Chosen(captured, parsed);
    if usage.Some? then DeskAfterResolved(pruned, row, id, plan.price(usage.value), now)
    else if missing.ReleaseHold? then AuthCapture.Cancel(pruned, id)
    else if plan.images.Some? then DeskAfterResolved(pruned, row, id, plan.images.value, now)
    else DeskAfterMissing(pruned, row, id, ok, now)
  }

  // settleResolvedUsage publishes the ledger id before the row, once pricing succeeded.
  function DeskAfterResolved(s: AuthCapture.State, row: Id, id: Id, price: Option<nat>, now: int): AuthCapture.State {
    if price.None? then s else AuthCapture.AuthForSettlement(s, id, row, now).0
  }

  // ---------- The code ----------

  class Service {
    const store: Store.Store
    const desk: AuthDesk.AuthDesk

    constructor ()
      ensures fresh(store) && fresh(desk) && Valid(store.State())
      ensures store.State() == LedgerInvariant.EMPTY && desk.View() == AuthCapture.EMPTY
    {
      store := new Store.Store();
      desk := new AuthDesk.AuthDesk();
    }

    // Frees the request slot and the auth slot; the hold and the capture stay.
    method FinishExecution(id: Id, now: int)
      requires Valid(store.State())
      modifies store, desk
      ensures store.State() == Ledger.FinishExecution(old(store.State()), id, now) && Valid(store.State())
      ensures desk.View() == AuthCapture.Finish(old(desk.View()), id)
    {
      var e := store.FinishExecution(id, now);
      desk.FinishAuthCapture(id);
    }

    method Release(id: Id, now: int) returns (ok: bool)
      requires Valid(store.State())
      modifies store, desk
      ensures store.State() == Ledger.Release(old(store.State()), id, now).0 && Valid(store.State())
      ensures ok == Ledger.Release(old(store.State()), id, now).1.Ok?
      ensures desk.View() == AuthCapture.Cancel(old(desk.View()), id)
    {
      desk.CancelAuthCapture(id);
      var r := store.Release(id, now);
      ok := r.Ok?;
    }

    // settleWithAuth: the ledger id is published before the row is written.
    method SettleWithAuth(row: Id, id: Id, model: string, usage: nat, cost: nat, now: int) returns (ok: bool)
      requires Valid(store.State())
      modifies store, desk
      ensures store.State() == Ledger.Settle(old(store.State()), row, id, model, usage, cost, false, now).0
              && Valid(store.State())
      ensures ok == Ledger.Settle(old(store.State()), row, id, model, usage, cost, false, now).1.Ok?
      ensures desk.View() == AuthCapture.AuthForSettlement(old(desk.View()), id, row, now).0
    {
      var auth := desk.SettlementAuth(id, row, now);
      var r := store.Settle(row, id, model, usage, cost, false, now);
      ok := r.Ok?;
    }

    method SettleZeroCostAttempt(row: Id, id: Id, model: string, reserved: string, now: int) returns (ok: bool)
      requires Valid(store.State())
      modifies store, desk
      ensures (store.State(), ok) == ZeroCostAttempt(old(store.State()), row, id, model, reserved, now)
              && Valid(store.State())
      ensures var finished := AuthCapture.Finish(old(desk.View()), id);
              desk.View() == if model == "" && reserved == "" then finished
                             else AuthCapture.AuthForSettlement(finished, id, row, now).0
    {
      FinishExecution(id, now);
      var name := if model == "" then reserved else model;
      if name == "" {
        return false;
      }
      ok := SettleWithAuth(row, id, name, 0, 0, now);
    }

    method SettleAttemptOrRelease(row: Id, id: Id, model: string, reserved: string, now: int)
      requires Valid(store.State())
      modifies store, desk
      ensures Valid(store.State())
      ensures store.State() == OrRelease(ZeroCostAttempt(old(store.State()), row, id, model, reserved, now), id, now)
      ensures IsHeld(old(store.State()), id) ==>
                EndsAs(old(store.State()), store.State(), row, id,
                  AttemptOutcome(old(store.State()), row, model, reserved))
    {
      if IsHeld(store.State(), id) {
        AttemptEnds(store.State(), row, id, model, reserved, now);
      }
      var ok := SettleZeroCostAttempt(row, id, model, reserved, now);
      if !ok {
        var released := Release(id, now);
      }
    }

    // settleMissingUsage: one section under the mutex, the row included.
    method SettleMissingUsage(row: Id, id: Id, plan: Plan, now: int) returns (ok: bool)
      requires Valid(store.State())
      modifies store, desk
      ensures Valid(store.State())
      ensures var usage := AuthCapture.CapturedUsage(AuthCapture.Pruned(old(desk.pending), now), id);
              (store.State(), ok) == MissingUsage(old(store.State()), row, id, plan, usage, now)
      ensures desk.View() == DeskAfterMissing(old(desk.View()), row, id, ok, now)
    {
      var usage := desk.CapturedHostUsage(id, now);
      if usage.Some? {
        var cost := Charged(plan, plan.price(usage.value));
        if cost.None? {
          return false;
        }
        var r := store.Settle(row, id, plan.model, usage.value, cost.value, false, now);
        ok := r.Ok?;
      } else {
        var r := store.Settle(row, id, plan.model, 0, 0, true, now);
        ok := r.Ok?;
      }
      if ok {
        desk.PublishSettled(id, row);
      }
    }

    method SettleFromUsage(row: Id, id: Id, plan: Plan, parsed: Option<nat>, missing: Missing, now: int)
      returns (ok: bool)
      requires Valid(store.State())
      modifies store, desk
      ensures Valid(store.State())
      ensures var captured := AuthCapture.CapturedUsage(AuthCapture.Pruned(old(desk.pending), now), id);
              (store.State(), ok) == FromUsage(old(store.State()), row, id, plan, captured, parsed, missing, now)
      ensures desk.View() == DeskAfterUsage(old(desk.View()), row, id, plan, parsed, missing, ok, now)
    {
      FinishExecution(id, now);
      PruneKeepsUsage(old(desk.View()), id, now);
      var captured := desk.CapturedHostUsage(id, now);
      var usage := Chosen(captured, parsed);
      if usage.Some? {
        ok := SettleResolved(row, id, plan, usage.value, plan.price(usage.value), now);
      } else if missing.ReleaseHold? {
        ok := Release(id, now);
      } else if plan.images.Some? {
        ok := SettleResolved(row, id, plan, 0, plan.images.value, now);
      } else {
        ok := SettleMissingUsage(row, id, plan, now);
      }
    }

    // settleResolvedUsage
    method SettleResolved(row: Id, id: Id, plan: Plan, usage: nat, price: Option<nat>, now: int) returns (ok: bool)
      requires Valid(store.State())
      modifies store, desk
      ensures Valid(store.State())
      ensures (store.State(), ok)
              == SettleUsage(old(store.State()), row, id, plan.model, usage, Charged(plan, price), now)
      ensures desk.View() == DeskAfterResolved(old(desk.View()), row, id, price, now)
    {
      var cost := Charged(plan, price);
      if cost.None? {
        return false;
      }
      ok := SettleWithAuth(row, id, plan.model, usage, cost.value, now);
    }

    // The end of runStream: settle from usage, and release what could not be settled. `captured` is
    // the usage that host callbacks had reported by then.
    method EndStream(row: Id, id: Id, plan: Plan, parsed: Option<nat>, missing: Missing, now: int)
      returns (ghost captured: Option<nat>)
      requires Valid(store.State())
      modifies store, desk
      ensures Valid(store.State())
      ensures captured == AuthCapture.CapturedUsage(AuthCapture.Pruned(old(desk.pending), now), id)
      ensures store.State()
              == OrRelease(FromUsage(old(store.State()), row, id, plan, captured, parsed, missing, now), id, now)
      ensures IsHeld(old(store.State()), id) ==>
                EndsAs(old(store.State()), store.State(), row, id,
                       UsageOutcome(old(store.State()), row, plan, captured, parsed, missing))
    {
      captured := AuthCapture.CapturedUsage(AuthCapture.Pruned(desk.pending, now), id);
      if IsHeld(store.State(), id) {
        UsageEnds(store.State(), row, id, plan, captured, parsed, missing, now);
      }
      var ok := SettleFromUsage(row, id, plan, parsed, missing, now);
      if !ok {
        var released := Release(id, now);
      }
    }
  }

  // Ending the execution changes no usage.
  lemma PruneKeepsUsage(s: AuthCapture.State, id: Id, now: int)
    ensures AuthCapture.CapturedUsage(AuthCapture.Pruned(AuthCapture.Finish(s, id).pending, now), id)
         == AuthCapture.CapturedUsage(AuthCapture.Pruned(s.pending, now), id)
  {
  }

  ghost function MissingUsage(db: Db, row: Id, id: Id, plan: Plan, usage: Option<nat>, now: int): (Db, bool) {
    if usage.Some? then SettleUsage(db, row, id, plan.model, usage.value, Charged(plan, plan.price(usage.value)), now)
    else
      var (after, r) := Ledger.Settle(db, row, id, plan.model, 0, 0, true, now);
      (after, r.Ok?)
  }
}
