// Limits over runs: the total quota, the calendar-period limits and the request slots.
module LedgerLimits {
  import opened Base
  import opened Calendar
  import opened Sums
  import opened Ledger
  import opened LedgerInvariant
  import opened LedgerSteps
  import opened LedgerRuns

  // What an admitted hold has passed: an enabled caller, a live key, an allowed model, and room in the
  // total quota, every period, the request slots and the token caps.
  lemma AdmittedHold(env: Env, db: Db, req: Request, now: int)
    requires CanHold(db, req) && Refusal(env, db, req, now).None?
    ensures req.caller in db.callers && db.callers[req.caller]
    ensures var key := db.keys[req.key];
            && !key.revoked && key.policy.enabled && (key.policy.expires.Some? ==> now < key.policy.expires.value)
            && ModelAllowed(env, key.policy.allowed, req.model)
            && (key.policy.Total() != 0 ==> Remaining(key) >= req.amount)
            && (forall p :: key.policy.SpendLimit(p) != 0 ==>
                  SpendSince(db, req.key, EffectiveStart(env, key, p, now)) + req.amount <= key.policy.SpendLimit(p))
            && (key.policy.maxConcurrent > 0 ==> Active(db, req.key) < key.policy.maxConcurrent)
            && TokenRefusal(env, db, req.key, req.model, req.estimate, now).None?
  {
    forall p | db.keys[req.key].policy.SpendLimit(p) != 0
      ensures SpendSince(db, req.key, EffectiveStart(env, db.keys[req.key], p, now)) + req.amount
              <= db.keys[req.key].policy.SpendLimit(p)
    {
      match p
      case Daily => assert !SpendRefused(env, db, req.key, req.amount, Daily, now);
      case Weekly => assert !SpendRefused(env, db, req.key, req.amount, Weekly, now);
      case Monthly => assert !SpendRefused(env, db, req.key, req.amount, Monthly, now);
    }
  }

  function Unlimited(db: Db, k: Id): Db
    requires k in db.keys
  {
    db.(keys := db.keys[k := db.keys[k].(policy := db.keys[k].policy.(quota := None))])
  }

  lemma TokensIgnoreQuota(env: Env, db: Db, k: Id, limit: TokenLimit, s: TokenStarts, estimate: int)
    requires k in db.keys
    ensures LimitRefusal(env, Unlimited(db, k), k, limit, s, estimate) == LimitRefusal(env, db, k, limit, s, estimate)
  {
    var free, from := Unlimited(db, k), QueryFrom(s);
    forall cap: nat, start ensures CapExceeded(env, free, k, limit.pattern, cap, start, from, estimate)
                                == CapExceeded(env, db, k, limit.pattern, cap, start, from, estimate) {
    }
  }

  lemma EarlyIgnoresQuota(env: Env, db: Db, req: Request, now: int)
    requires req.key in db.keys
    ensures EarlyRefusal(env, Unlimited(db, req.key), req, now) == EarlyRefusal(env, db, req, now)
  {
    var key, free := db.keys[req.key], Unlimited(db, req.key);
    if SomeMatch(env, key.policy.limits, req.model) {
      TokensIgnoreQuota(env, db, req.key, Winner(env, key.policy.limits, req.model), StartsOf(env, key, now),
        req.estimate);
    }
    forall p
      ensures SpendRefused(env, db, req.key, req.amount, p, now) == SpendRefused(env, free, req.key, req.amount, p, now)
    {
    }
  }

  // The total quota decides alone: a request the key would take without a quota is refused exactly
  // when less than its amount remains, and a taken hold leaves a non-negative remainder.
  lemma QuotaDecides(env: Env, db: Db, req: Request, now: int)
    requires CanHold(db, req) && Refusal(env, Unlimited(db, req.key), req, now).None?
    requires db.keys[req.key].policy.Total() > 0
    ensures var (after, r) := Reserve(env, db, req, now);
            if Remaining(db.keys[req.key]) < req.amount then after == db && r == Err(InsufficientQuota)
            else r == Ok(NewHold(req, now)) && after == WithHold(db, req, now)
                 && Remaining(after.keys[req.key]) == Remaining(db.keys[req.key]) - req.amount >= 0
  {
    EarlyIgnoresQuota(env, db, req, now);
    assert Refusal(env, db, req, now)
        == if Remaining(db.keys[req.key]) < req.amount then Some(InsufficientQuota) else None;
  }

  // ---------- Sums over held reservations under one effect ----------

  // A measure of held reservations: zero for everything else, unmoved by a release.
  ghost predicate HeldMeasure(f: (Id, Reservation) -> int) {
    forall id: Id, r: Reservation :: (!r.status.Held? ==> f(id, r) == 0) && (r.held >= 0 ==> f(id, r) >= 0)
  }

  lemma ReleaseShrinks(db: Db, ids: set<Id>, now: int, f: (Id, Reservation) -> int)
    requires Valid(db) && HeldMeasure(f)
    ensures SumMap(ReleaseRows(db.reservations, ids, now), f) <= SumMap(db.reservations, f)
  {
    var after := ReleaseRows(db.reservations, ids, now);
    forall id | id in after ensures f(id, after[id]) <= f(id, db.reservations[id]) {
      assert ReservationFits(db.keys, db.reservations[id]);
    }
    SumCompare(after, db.reservations, f, f);
  }

  // How a step moves a held measure: up by a new hold, down by a settlement, otherwise never up.
  lemma MeasureMoves(db: Db, e: Effect, now: int, f: (Id, Reservation) -> int)
    requires Valid(db) && Legal(db, e) && HeldMeasure(f)
    ensures var before, after := SumMap(db.reservations, f), SumMap(Apply(db, e, now).reservations, f);
            match e
            case Hold(req) => after == before + f(req.id, NewHold(req, now))
            case Settles(_, id, _, _, _, _) => after == before - f(id, db.reservations[id])
            case Releases(_) => after <= before
            case Marks(id, r) => after == before - f(id, db.reservations[id]) + f(id, r)
            case _ => after == before
  {
    match e
    case Hold(req) => SumUpdate(db.reservations, f, req.id, NewHold(req, now));
    case Settles(row, id, model, tokens, cost, fallback) =>
      SumUpdate(db.reservations, f, id, SettleReservation(db.reservations[id], model, cost, now));
    case Releases(ids) => ReleaseShrinks(db, ids, now, f);
    case Marks(id, r) => SumUpdate(db.reservations, f, id, r);
    case Reprices(row, tokens, cost) => RepriceMeasure(db, row, tokens, cost, now, f);
    case Rejects(id, row, caller, k, model) =>
      SumUpdate(db.reservations, f, id, WithRejection(db, id, row, caller, k, model, now).reservations[id]);
    case _ =>
  }

  lemma RepriceMeasure(db: Db, row: Id, tokens: int, cost: int, now: int, f: (Id, Reservation) -> int)
    requires Valid(db) && CanReprice(db, row, tokens, cost) && HeldMeasure(f)
    ensures SumMap(WithReprice(db, row, tokens, cost, now).reservations, f) == SumMap(db.reservations, f)
  {
    var before := db.ledger[row];
    assert RowFits(db.reservations, before);
    SumUpdate(db.reservations, f, before.reservation,
              RepriceReservation(db.reservations[before.reservation], cost, cost - before.cost, now));
  }

  lemma NewKeyIsIdle(db: Db, k: Id, f: (Id, Reservation) -> int, g: (Id, Row) -> int)
    requires Valid(db) && k !in db.keys
    requires forall id: Id, r: Reservation :: r.key != k ==> f(id, r) == 0
    requires forall l: Id, row: Row :: row.key != k ==> g(l, row) == 0
    ensures SumMap(db.reservations, f) == 0 && SumMap(db.ledger, g) == 0
  {
    forall id | id in db.reservations ensures f(id, db.reservations[id]) == 0 {
      assert ReservationFits(db.keys, db.reservations[id]);
    }
    AllZero(db.reservations, f);
    forall l | l in db.ledger ensures g(l, db.ledger[l]) == 0 {
      assert RowFits(db.reservations, db.ledger[l]);
      assert ReservationFits(db.keys, db.reservations[db.ledger[l].reservation]);
    }
    AllZero(db.ledger, g);
  }

  // ---------- Overdraft of the total quota ----------

  // How far one step may push spending beyond what was held or recorded before.
  ghost function Overage(db: Db, e: Effect, k: Id): nat
    requires Legal(db, e)
  {
    match e
    case Settles(_, id, _, _, cost, _) =>
      if db.reservations[id].key == k then Max(0, cost - db.reservations[id].held) else 0
    case Reprices(row, _, cost) => if db.ledger[row].key == k then Max(0, cost - db.ledger[row].cost) else 0
    case _ => 0
  }

  // What a limited key has overspent; 0 for an unknown or unlimited key.
  ghost function Deficit(db: Db, k: Id): nat {
    if k in db.keys && db.keys[k].policy.Total() > 0 then Max(0, -Remaining(db.keys[k])) else 0
  }

  ghost predicate QuotaKept(db: Db, after: Db, k: Id) {
    k in db.keys ==> k in after.keys && after.keys[k].policy.Total() >= db.keys[k].policy.Total() > 0
  }

  lemma ReleaseLowersHeld(db: Db, ids: set<Id>, now: int, k: Id)
    requires Valid(db) && k in db.keys
    ensures ReleaseSet(db, ids, now).keys[k].held <= db.keys[k].held
  {
    ReleaseShrinks(db, ids, now, HeldBy(k));
  }

  lemma SettlementDeficit(db: Db, e: Effect, now: int, k: Id)
    requires Valid(db) && Legal(db, e) && (e.Settles? || e.Reprices?) && QuotaKept(db, Apply(db, e, now), k)
    ensures Deficit(Apply(db, e, now), k) <= Deficit(db, k) + Overage(db, e, k)
  {
    if k in db.keys {
      assert db.keys[k].settled >= 0;
    }
  }

  lemma EffectDeficit(env: Env, db: Db, e: Effect, now: int, k: Id)
    requires Valid(db) && Legal(db, e) && Admitted(env, db, e, now) && QuotaKept(db, Apply(db, e, now), k)
    ensures Deficit(Apply(db, e, now), k) <= Deficit(db, k) + Overage(db, e, k)
  {
    match e
    case Settles(_, _, _, _, _, _) => SettlementDeficit(db, e, now, k);
    case Reprices(_, _, _) => SettlementDeficit(db, e, now, k);
    case Hold(req) => AdmittedHold(env, db, req, now);
    case Releases(ids) =>
      if k in db.keys {
        ReleaseLowersHeld(db, ids, now, k);
      }
    case Resets(targets, scopes) => assert k in db.keys ==> db.keys[k].settled >= 0;
    case _ =>
  }

  ghost predicate QuotaKeptRun(env: Env, db: Db, es: seq<Event>, k: Id) {
    es != [] ==>
      var n := |es| - 1;
      QuotaKeptRun(env, db, es[..n], k) && QuotaKept(Run(env, db, es[..n]), Run(env, db, es), k)
  }

  ghost function TotalOverage(env: Env, db: Db, es: seq<Event>, k: Id): nat
    requires Valid(db)
  {
    if es == [] then 0
    else
      var n := |es| - 1;
      RunValid(env, db, es[..n]);
      var before := Run(env, db, es[..n]);
      StepHasEffect(env, before, es[n].op, es[n].at);
      TotalOverage(env, db, es[..n], k) + Overage(before, EffectOf(env, before, es[n].op, es[n].at), k)
  }

  // With a positive total quota that is never lowered, a key is never overdrawn by more than the
  // settlements exceeded their holds and the reprices raised their rows.
  lemma {:induction false} RunOverdraft(env: Env, db: Db, es: seq<Event>, k: Id)
    requires Valid(db) && QuotaKeptRun(env, db, es, k)
    ensures Deficit(Run(env, db, es), k) <= Deficit(db, k) + TotalOverage(env, db, es, k)
  {
    if es != [] {
      var n := |es| - 1;
      RunOverdraft(env, db, es[..n], k);
      RunValid(env, db, es[..n]);
      var before := Run(env, db, es[..n]);
      StepHasEffect(env, before, es[n].op, es[n].at);
      EffectDeficit(env, before, EffectOf(env, before, es[n].op, es[n].at), es[n].at, k);
    }
  }

  // Every settlement of k stays within `slack` of its hold and no reprice raises a row of k.
  ghost predicate WithinHold(db: Db, e: Effect, k: Id, slack: nat)
    requires Legal(db, e)
  {
    match e
    case Settles(_, id, _, _, cost, _) => db.reservations[id].key == k ==> cost <= db.reservations[id].held + slack
    case Reprices(row, _, cost) => db.ledger[row].key == k ==> cost <= db.ledger[row].cost
    case _ => true
  }

  ghost predicate WithinHoldRun(env: Env, db: Db, es: seq<Event>, k: Id, slack: nat)
    requires Valid(db)
  {
    es != [] ==>
      var n := |es| - 1;
      RunValid(env, db, es[..n]);
      var before := Run(env, db, es[..n]);
      StepHasEffect(env, before, es[n].op, es[n].at);
      WithinHoldRun(env, db, es[..n], k, slack)
        && WithinHold(before, EffectOf(env, before, es[n].op, es[n].at), k, slack)
  }

  function SettleSteps(es: seq<Event>): nat {
    if es == [] then 0 else SettleSteps(es[..|es| - 1]) + (if es[|es| - 1].op.DoSettle? then 1 else 0)
  }

  lemma StepOverage(env: Env, db: Db, op: Op, now: int, k: Id, slack: nat)
    requires Legal(db, EffectOf(env, db, op, now)) && WithinHold(db, EffectOf(env, db, op, now), k, slack)
    ensures Overage(db, EffectOf(env, db, op, now), k) <= if op.DoSettle? then slack else 0
  {
  }

  lemma {:induction false} OveragePerSettlement(env: Env, db: Db, es: seq<Event>, k: Id, slack: nat)
    requires Valid(db) && WithinHoldRun(env, db, es, k, slack)
    ensures TotalOverage(env, db, es, k) <= slack * SettleSteps(es)
  {
    if es != [] {
      var n := |es| - 1;
      OveragePerSettlement(env, db, es[..n], k, slack);
      RunValid(env, db, es[..n]);
      var before := Run(env, db, es[..n]);
      StepHasEffect(env, before, es[n].op, es[n].at);
      StepOverage(env, before, es[n].op, es[n].at, k, slack);
      OneMore(slack, SettleSteps(es[..n]));
    }
  }

  lemma OneMore(slack: nat, n: nat)
    ensures slack * (n + 1) == slack * n + slack
  {
  }

  // Settlements within `slack` of their holds overdraw a key by at most slack per settlement. The
  // pricing model supplies slack 2, and slack 0 without cache tokens.
  lemma OverdraftPerSettlement(env: Env, db: Db, es: seq<Event>, k: Id, slack: nat)
    requires Valid(db) && QuotaKeptRun(env, db, es, k) && WithinHoldRun(env, db, es, k, slack)
    ensures Deficit(Run(env, db, es), k) <= Deficit(db, k) + slack * SettleSteps(es)
  {
    RunOverdraft(env, db, es, k);
    OveragePerSettlement(env, db, es, k, slack);
  }

  // ---------- Calendar-period limits ----------

  // Spend of k in the period that began at calendar start `from`, honouring the period's reset.
  ghost function PeriodSpend(db: Db, k: Id, p: Period, from: int): int
    requires k in db.keys
  {
    SpendSince(db, k, PeriodStart(from, db.keys[k].ResetAt(p)))
  }

  ghost function Excess(db: Db, k: Id, p: Period, from: int): nat {
    if k in db.keys then Max(0, PeriodSpend(db, k, p, from) - db.keys[k].policy.SpendLimit(p)) else 0
  }

  // What one step may add beyond the limit: the over-settlement of an in-period hold, the full cost
  // of settling an older hold, and the rise of an in-period row.
  ghost function Charge(db: Db, e: Effect, k: Id, start: int): nat
    requires Legal(db, e)
  {
    match e
    case Settles(_, id, _, _, cost, _) =>
      var r := db.reservations[id];
      if r.key != k then 0 else if r.created >= start then Max(0, cost - r.held) else cost
    case Reprices(row, _, cost) =>
      if db.ledger[row].key == k && db.ledger[row].created >= start then Max(0, cost - db.ledger[row].cost) else 0
    case _ => 0
  }

  ghost predicate LimitKept(db: Db, after: Db, k: Id, p: Period) {
    k in db.keys ==> k in after.keys && after.keys[k].policy.SpendLimit(p) >= db.keys[k].policy.SpendLimit(p) > 0
  }

  // A later start counts less: period rollover and resets only shrink the counted spend.
  lemma SpendShrinks(db: Db, k: Id, start: int, later: int)
    requires Valid(db) && start <= later
    ensures 0 <= SpendSince(db, k, later) <= SpendSince(db, k, start)
  {
    CostsShrink(db.reservations, db.ledger, k, start, later);
    HoldsShrink(db.keys, db.reservations, k, start, later);
  }

  lemma CostsShrink(reservations: Reservations, ledger: Rows, k: Id, start: int, later: int)
    requires RowsFit(reservations, ledger) && start <= later
    ensures 0 <= SumMap(ledger, CostSince(k, Some(later))) <= SumMap(ledger, CostSince(k, Some(start)))
  {
    var f, g := CostSince(k, Some(later)), CostSince(k, Some(start));
    forall l | l in ledger ensures 0 <= f(l, ledger[l]) <= g(l, ledger[l]) {
      assert RowFits(reservations, ledger[l]);
    }
    SumCompare(ledger, ledger, f, g);
    SumNonNegative(ledger, f);
  }

  lemma HoldsShrink(keys: Keys, reservations: Reservations, k: Id, start: int, later: int)
    requires ReservationsFit(keys, reservations) && start <= later
    ensures 0 <= SumMap(reservations, HeldSince(k, later)) <= SumMap(reservations, HeldSince(k, start))
  {
    var f, g := HeldSince(k, later), HeldSince(k, start);
    forall id | id in reservations ensures 0 <= f(id, reservations[id]) <= g(id, reservations[id]) {
      assert ReservationFits(keys, reservations[id]);
    }
    SumCompare(reservations, reservations, f, g);
    SumNonNegative(reservations, f);
  }

  lemma RowSpendMoves(db: Db, e: Effect, now: int, k: Id, start: int)
    requires Valid(db) && Legal(db, e)
    ensures var f := CostSince(k, Some(start));
            var before, after := SumMap(db.ledger, f), SumMap(Apply(db, e, now).ledger, f);
            match e
            case Settles(_, id, _, _, cost, _) =>
              after == before + (if db.reservations[id].key == k && now >= start then cost else 0)
            case Reprices(row, _, cost) =>
              after == before + (if db.ledger[row].key == k && db.ledger[row].created >= start
                                 then cost - db.ledger[row].cost else 0)
            case _ => after == before
  {
    var f, after := CostSince(k, Some(start)), Apply(db, e, now);
    match e
    case Settles(row, id, model, tokens, cost, fallback) => SumUpdate(db.ledger, f, row, after.ledger[row]);
    case Reprices(row, tokens, cost) => SumUpdate(db.ledger, f, row, after.ledger[row]);
    case Rejects(id, row, caller, owner, model) => SumUpdate(db.ledger, f, row, after.ledger[row]);
    case _ =>
  }

  lemma HeldSpendMoves(db: Db, e: Effect, now: int, k: Id, start: int)
    requires Valid(db) && Legal(db, e)
    ensures var f := HeldSince(k, start);
            SumMap(Apply(db, e, now).reservations, f) <= SumMap(db.reservations, f)
              + (match e
                 case Hold(req) => if req.key == k then req.amount else 0
                 case Settles(_, id, _, _, _, _) => -f(id, db.reservations[id])
                 case _ => 0)
  {
    MeasureMoves(db, e, now, HeldSince(k, start));
  }

  // One step against a fixed start.
  lemma SpendMoves(db: Db, e: Effect, now: int, k: Id, start: int)
    requires Valid(db) && Legal(db, e)
    ensures SpendSince(Apply(db, e, now), k, start)
         <= SpendSince(db, k, start) + Charge(db, e, k, start)
            + (if e.Hold? && e.req.key == k then e.req.amount else 0)
  {
    RowSpendMoves(db, e, now, k, start);
    HeldSpendMoves(db, e, now, k, start);
  }

  // A period reset starts the selected periods over from now, whatever was spent before, and leaves
  // the others and the settled total alone; only the total scope clears the total.
  lemma ResetRestarts(db: Db, targets: set<Id>, scopes: Scopes, clock: int, now: int, k: Id, p: Period, from: int)
    requires Timed(db, clock) && clock < now && from <= now && k in db.keys && k in targets
    ensures var after := WithReset(db, targets, scopes, now);
            && k in after.keys
            && PeriodSpend(after, k, p, from) == (if InScope(scopes, p) then 0 else PeriodSpend(db, k, p, from))
            && after.keys[k].settled == (if scopes.total then 0 else db.keys[k].settled)
            && after.keys[k].held == db.keys[k].held
  {
    NothingSince(db, clock, k, now);
    ResetStart(db.keys[k], scopes, now, p, from);
  }

  lemma ResetStart(key: Key, scopes: Scopes, now: int, p: Period, from: int)
    requires from <= now
    ensures PeriodStart(from, ResetKey(key, scopes, now).ResetAt(p))
            == (if InScope(scopes, p) then now else PeriodStart(from, key.ResetAt(p)))
  {
  }

  lemma NothingSince(db: Db, clock: int, k: Id, start: int)
    requires Timed(db, clock) && clock < start
    ensures SpendSince(db, k, start) == 0
  {
    forall id | id in db.reservations ensures HeldSince(k, start)(id, db.reservations[id]) == 0 {
      assert ReservationTimed(db.reservations[id], clock);
    }
    AllZero(db.ledger, CostSince(k, Some(start)));
    AllZero(db.reservations, HeldSince(k, start));
  }

  predicate InScope(scopes: Scopes, p: Period) {
    match p
    case Daily => scopes.daily
    case Weekly => scopes.weekly
    case Monthly => scopes.monthly
  }

  // A reset only moves a period's start forward.
  lemma ResetOnlyAdvances(db: Db, e: Effect, clock: int, now: int, k: Id, p: Period, from: int)
    requires Legal(db, e) && Timed(db, clock) && clock <= now && 0 <= now && k in db.keys
    ensures k in Apply(db, e, now).keys
    ensures PeriodStart(from, db.keys[k].ResetAt(p)) <= PeriodStart(from, Apply(db, e, now).keys[k].ResetAt(p))
  {
    assert KeyTimed(db.keys[k], clock);
  }

  lemma HoldExcess(env: Env, db: Db, req: Request, now: int, k: Id, p: Period)
    requires Valid(db) && CanHold(db, req) && Refusal(env, db, req, now).None? && k in db.keys
    requires db.keys[k].policy.SpendLimit(p) > 0
    ensures var from := CalendarStart(p, env.monthStart, now);
            Excess(WithHold(db, req, now), k, p, from) <= Excess(db, k, p, from)
  {
    var from := CalendarStart(p, env.monthStart, now);
    var start := PeriodStart(from, db.keys[k].ResetAt(p));
    AdmittedHold(env, db, req, now);
    SumUpdate(db.reservations, HeldSince(k, start), req.id, NewHold(req, now));
  }

  lemma KnownKeyExcess(db: Db, e: Effect, clock: int, now: int, k: Id, p: Period, from: int)
    requires Valid(db) && Legal(db, e) && !e.Hold? && Timed(db, clock) && clock <= now && 0 <= now
    requires k in db.keys && LimitKept(db, Apply(db, e, now), k, p)
    ensures Excess(Apply(db, e, now), k, p, from) <= Excess(db, k, p, from) + ChargeIn(db, e, k, p, from)
  {
    var after := Apply(db, e, now);
    var start, next := PeriodStart(from, db.keys[k].ResetAt(p)), PeriodStart(from, after.keys[k].ResetAt(p));
    EffectValid(db, e, now);
    SpendMoves(db, e, now, k, start);
    ResetOnlyAdvances(db, e, clock, now, k, p, from);
    SpendShrinks(after, k, start, next);
  }

  lemma NewKeyExcess(db: Db, e: Effect, now: int, k: Id, p: Period, from: int)
    requires Valid(db) && Legal(db, e) && k !in db.keys
    ensures Excess(Apply(db, e, now), k, p, from) == 0
  {
    var after := Apply(db, e, now);
    EffectValid(db, e, now);
    if k in after.keys {
      var start := PeriodStart(from, after.keys[k].ResetAt(p));
      NewKeyIsIdle(db, k, HeldSince(k, start), CostSince(k, Some(start)));
    }
  }

  lemma EffectExcess(env: Env, db: Db, e: Effect, clock: int, now: int, k: Id, p: Period)
    requires Valid(db) && Legal(db, e) && Admitted(env, db, e, now) && Timed(db, clock) && clock <= now && 0 <= now
    requires LimitKept(db, Apply(db, e, now), k, p)
    ensures var from := CalendarStart(p, env.monthStart, now);
            Excess(Apply(db, e, now), k, p, from) <= Excess(db, k, p, from) + ChargeIn(db, e, k, p, from)
  {
    var from := CalendarStart(p, env.monthStart, now);
    if k !in db.keys {
      NewKeyExcess(db, e, now, k, p, from);
    } else if e.Hold? {
      HoldExcess(env, db, e.req, now, k, p);
    } else {
      KnownKeyExcess(db, e, clock, now, k, p, from);
    }
  }

  // The charge against the start in force when the step is taken.
  ghost function ChargeIn(db: Db, e: Effect, k: Id, p: Period, from: int): nat
    requires Legal(db, e)
  {
    if k in db.keys then Charge(db, e, k, PeriodStart(from, db.keys[k].ResetAt(p))) else 0
  }

  // All events fall into the calendar period starting at `from`, and the limit is never lowered.
  ghost predicate WithinPeriod(env: Env, db: Db, es: seq<Event>, k: Id, p: Period, from: int) {
    es != [] ==>
      var n := |es| - 1;
      && WithinPeriod(env, db, es[..n], k, p, from)
      && CalendarStart(p, env.monthStart, es[n].at) == from
      && LimitKept(Run(env, db, es[..n]), Run(env, db, es), k, p)
  }

  ghost function TotalCharge(env: Env, db: Db, es: seq<Event>, k: Id, p: Period, from: int): nat
    requires Valid(db)
  {
    if es == [] then 0
    else
      var n := |es| - 1;
      RunValid(env, db, es[..n]);
      var before := Run(env, db, es[..n]);
      StepHasEffect(env, before, es[n].op, es[n].at);
      TotalCharge(env, db, es[..n], k, p, from)
        + ChargeIn(before, EffectOf(env, before, es[n].op, es[n].at), k, p, from)
  }

  // The period bound: through any run inside one calendar period with a positive, never lowered
  // limit, settled plus held spend exceeds the limit by no more than the excess at the beginning and
  // the charges of the steps.
  lemma {:induction false} RunPeriodBound(env: Env, db: Db, es: seq<Event>, clock: nat, k: Id, p: Period, from: int)
    requires Valid(db) && Timed(db, clock) && Clocked(clock, es) && WithinPeriod(env, db, es, k, p, from)
    ensures Excess(Run(env, db, es), k, p, from) <= Excess(db, k, p, from) + TotalCharge(env, db, es, k, p, from)
    ensures 0 <= ClockAfter(clock, es)
  {
    if es != [] {
      var n := |es| - 1;
      RunPeriodBound(env, db, es[..n], clock, k, p, from);
      RunValid(env, db, es[..n]);
      RunTimed(env, db, es[..n], clock);
      var before := Run(env, db, es[..n]);
      StepHasEffect(env, before, es[n].op, es[n].at);
      EffectExcess(env, before, EffectOf(env, before, es[n].op, es[n].at), ClockAfter(clock, es[..n]), es[n].at, k, p);
    }
  }

  // A period that begins after everything stored begins with nothing spent.
  lemma RolloverClears(db: Db, clock: int, k: Id, p: Period, from: int)
    requires Valid(db) && Timed(db, clock) && clock < from && k in db.keys
    ensures PeriodSpend(db, k, p, from) == 0
    ensures db.keys[k].policy.SpendLimit(p) >= 0 && Excess(db, k, p, from) == 0
  {
    NothingSince(db, clock, k, PeriodStart(from, db.keys[k].ResetAt(p)));
  }

  // So a period entered after its boundary exceeds its limit by the charges of its own steps alone.
  lemma FreshPeriodBound(env: Env, db: Db, es: seq<Event>, clock: nat, k: Id, p: Period, from: int)
    requires Valid(db) && Timed(db, clock) && Clocked(clock, es) && WithinPeriod(env, db, es, k, p, from)
             && clock < from
    ensures Excess(Run(env, db, es), k, p, from) <= TotalCharge(env, db, es, k, p, from)
  {
    RunPeriodBound(env, db, es, clock, k, p, from);
    if k in db.keys {
      RolloverClears(db, clock, k, p, from);
    }
  }
}
