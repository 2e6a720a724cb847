// A key's settled counter against its ledger rows, over runs.
module LedgerBounds {
  import opened Base
  import opened Calendar
  import opened Sums
  import opened Ledger
  import opened LedgerInvariant
  import opened LedgerSteps
  import opened LedgerRuns

  // Cost of the rows the total quota counts: those not older than the last total reset.
  ghost function Counted(db: Db, k: Id): int
    requires k in db.keys
  {
    SumMap(db.ledger, CostSince(k, db.keys[k].totalReset))
  }

  // By how much the ledger exceeds the key's settled counter.
  ghost function Drift(db: Db, k: Id): int
    requires k in db.keys
  {
    Counted(db, k) - db.keys[k].settled
  }

  // A successful total reset of k.
  ghost predicate ResetsTotal(e: Effect, k: Id) {
    e.Resets? && e.scopes.total && k in e.targets
  }

  lemma CountedAfterRow(ledger: Rows, l: Id, row: Row, k: Id, start: Option<int>)
    ensures SumMap(ledger[l := row], CostSince(k, start))
         == SumMap(ledger, CostSince(k, start)) - (if l in ledger then CostSince(k, start)(l, ledger[l]) else 0)
           + CostSince(k, start)(l, row)
  {
    SumUpdate(ledger, CostSince(k, start), l, row);
  }

  lemma SettleDrift(db: Db, row: Id, id: Id, model: string, tokens: int, cost: int, fallback: bool, clock: int,
                    now: int, k: Id)
    requires Valid(db) && Timed(db, clock) && clock <= now && k in db.keys && CanSettle(db, row, id, tokens, cost)
    ensures Drift(WithSettlement(db, row, id, model, tokens, cost, fallback, now), k) == Drift(db, k)
  {
    assert KeyTimed(db.keys[k], clock);
    var after := WithSettlement(db, row, id, model, tokens, cost, fallback, now);
    CountedAfterRow(db.ledger, row, after.ledger[row], k, db.keys[k].totalReset);
  }

  // The repricing clamp `settled + delta < 0` takes its 0 branch.
  ghost predicate RepriceClamps(key: Key, before: Row, cost: int) {
    CountsSince(key.totalReset, before.created) && key.settled + cost - before.cost < 0
  }

  lemma CostsNonNegative(ledger: Rows, k: Id, start: Option<int>)
    requires forall l | l in ledger :: ledger[l].cost >= 0
    ensures SumMap(ledger, CostSince(k, start)) >= 0
    ensures forall l | l in ledger :: CostSince(k, start)(l, ledger[l]) <= SumMap(ledger, CostSince(k, start))
  {
    SumNonNegative(ledger, CostSince(k, start));
  }

  // A counter that equals its ledger sum is never clamped.
  lemma RepriceClampIsDead(db: Db, row: Id, cost: int)
    requires Valid(db) && row in db.ledger && db.ledger[row].key in db.keys && cost >= 0
    requires RepriceClamps(db.keys[db.ledger[row].key], db.ledger[row], cost)
    ensures Drift(db, db.ledger[row].key) > 0
  {
    var k := db.ledger[row].key;
    LedgerCosts(db);
    CostsNonNegative(db.ledger, k, db.keys[k].totalReset);
    assert CostSince(k, db.keys[k].totalReset)(row, db.ledger[row]) == db.ledger[row].cost;
  }

  lemma LedgerCosts(db: Db)
    requires Valid(db)
    ensures forall l | l in db.ledger :: db.ledger[l].cost >= 0
  {
    forall l | l in db.ledger ensures db.ledger[l].cost >= 0 {
      assert RowFits(db.reservations, db.ledger[l]);
    }
  }

  lemma RepriceCounted(db: Db, row: Id, tokens: int, cost: int, now: int, k: Id)
    requires k in db.keys && CanReprice(db, row, tokens, cost)
    ensures var after, before := WithReprice(db, row, tokens, cost, now), db.ledger[row];
            Counted(after, k) == Counted(db, k)
              + (if before.key == k && CountsSince(db.keys[k].totalReset, before.created)
                 then cost - before.cost else 0)
  {
    var after := WithReprice(db, row, tokens, cost, now);
    CountedAfterRow(db.ledger, row, after.ledger[row], k, db.keys[k].totalReset);
  }

  // Repricing moves counter and sum together; where the clamp fires it can only close the gap.
  lemma RepriceDrift(db: Db, row: Id, tokens: int, cost: int, now: int, k: Id)
    requires Valid(db) && k in db.keys && CanReprice(db, row, tokens, cost)
    ensures var after, before := WithReprice(db, row, tokens, cost, now), db.ledger[row];
            if before.key == k && RepriceClamps(db.keys[k], before, cost)
            then Drift(after, k) == Counted(after, k) < Drift(db, k)
            else Drift(after, k) == Drift(db, k)
  {
    RepriceCounted(db, row, tokens, cost, now, k);
  }

  lemma RejectDrift(db: Db, id: Id, row: Id, caller: Id, owner: Id, model: string, now: int, k: Id)
    requires k in db.keys && CanReject(db, id, row, caller, owner)
    ensures Drift(WithRejection(db, id, row, caller, owner, model, now), k) == Drift(db, k)
  {
    var after := WithRejection(db, id, row, caller, owner, model, now);
    CountedAfterRow(db.ledger, row, after.ledger[row], k, db.keys[k].totalReset);
  }

  // The one law of the settled counter. Every step keeps the difference between ledger and counter,
  // except that a total reset sets it to the cost stamped at or after the reset, and a reprice that
  // clamps lowers it.
  lemma EffectDrift(db: Db, e: Effect, clock: int, now: int, k: Id)
    requires Valid(db) && Legal(db, e) && Timed(db, clock) && clock <= now && k in db.keys
    ensures k in Apply(db, e, now).keys
    ensures var after := Apply(db, e, now);
            if ResetsTotal(e, k) then Drift(after, k) == SumMap(db.ledger, CostSince(k, Some(now)))
            else if e.Reprices? && db.ledger[e.row].key == k && RepriceClamps(db.keys[k], db.ledger[e.row], e.cost)
            then Drift(after, k) == Counted(after, k) < Drift(db, k)
            else Drift(after, k) == Drift(db, k)
  {
    match e
    case Settles(row, id, model, tokens, cost, fallback) =>
      SettleDrift(db, row, id, model, tokens, cost, fallback, clock, now, k);
    case Reprices(row, tokens, cost) => RepriceDrift(db, row, tokens, cost, now, k);
    case Rejects(id, row, caller, owner, model) => RejectDrift(db, id, row, caller, owner, model, now, k);
    case _ => HoldDriftOrReset(db, e, now, k);
  }

  lemma HoldDriftOrReset(db: Db, e: Effect, now: int, k: Id)
    requires Legal(db, e) && k in db.keys && !e.Settles? && !e.Reprices? && !e.Rejects?
    ensures k in Apply(db, e, now).keys
    ensures Drift(Apply(db, e, now), k)
         == if ResetsTotal(e, k) then SumMap(db.ledger, CostSince(k, Some(now))) else Drift(db, k)
  {
  }

  // settled never exceeds the ledger, in every state of every run with a nondecreasing clock.
  ghost predicate NeverAbove(db: Db) {
    forall k | k in db.keys :: Drift(db, k) >= 0
  }

  // settled equals the ledger.
  ghost predicate Exact(db: Db) {
    forall k | k in db.keys :: Drift(db, k) == 0
  }

  lemma NewKeyDrift(db: Db, e: Effect, now: int, k: Id)
    requires Valid(db) && Legal(db, e) && k !in db.keys && k in Apply(db, e, now).keys
    ensures Drift(Apply(db, e, now), k) == 0
  {
    forall l | l in db.ledger ensures CostSince(k, None)(l, db.ledger[l]) == 0 {
      assert RowFits(db.reservations, db.ledger[l]);
      assert ReservationFits(db.keys, db.reservations[db.ledger[l].reservation]);
    }
    AllZero(db.ledger, CostSince(k, None));
  }

  lemma StepNeverAbove(env: Env, db: Db, op: Op, clock: int, now: int)
    requires Valid(db) && Timed(db, clock) && clock <= now && NeverAbove(db)
    ensures NeverAbove(Step(env, db, op, now))
  {
    StepHasEffect(env, db, op, now);
    StepValid(env, db, op, now);
    var e, after := EffectOf(env, db, op, now), Step(env, db, op, now);
    LedgerCosts(db);
    LedgerCosts(after);
    forall k | k in after.keys ensures Drift(after, k) >= 0 {
      if k in db.keys {
        EffectDrift(db, e, clock, now, k);
        CostsNonNegative(db.ledger, k, Some(now));
        CostsNonNegative(after.ledger, k, after.keys[k].totalReset);
      } else {
        NewKeyDrift(db, e, now, k);
      }
    }
  }

  lemma {:induction false} RunNeverAbove(env: Env, db: Db, es: seq<Event>, clock: int)
    requires Valid(db) && Timed(db, clock) && Clocked(clock, es) && NeverAbove(db)
    ensures NeverAbove(Run(env, db, es))
  {
    if es != [] {
      var n := |es| - 1;
      RunNeverAbove(env, db, es[..n], clock);
      RunValid(env, db, es[..n]);
      RunTimed(env, db, es[..n], clock);
      StepNeverAbove(env, Run(env, db, es[..n]), es[n].op, ClockAfter(clock, es[..n]), es[n].at);
    }
  }

  // No priced row of k carries a time stamp at or after now.
  ghost predicate NoCostAt(db: Db, k: Id, now: int) {
    forall l | l in db.ledger && db.ledger[l].key == k && db.ledger[l].created >= now :: db.ledger[l].cost == 0
  }

  ghost predicate CleanReset(env: Env, db: Db, op: Op, now: int) {
    forall k | k in db.keys && ResetsTotal(EffectOf(env, db, op, now), k) :: NoCostAt(db, k, now)
  }

  // One key across one step that starts exact. The clamp of a reprice is never taken.
  lemma EffectExact(db: Db, e: Effect, clock: int, now: int, k: Id)
    requires Valid(db) && Legal(db, e) && Timed(db, clock) && clock <= now && k in db.keys && Drift(db, k) == 0
    ensures k in Apply(db, e, now).keys
    ensures Drift(Apply(db, e, now), k) == 0 <==> !ResetsTotal(e, k) || NoCostAt(db, k, now)
    ensures e.Reprices? && db.ledger[e.row].key == k ==> !RepriceClamps(db.keys[k], db.ledger[e.row], e.cost)
  {
    LedgerCosts(db);
    EffectDrift(db, e, clock, now, k);
    ResetDriftZero(db, k, now);
    if e.Reprices? && db.ledger[e.row].key == k && RepriceClamps(db.keys[k], db.ledger[e.row], e.cost) {
      RepriceClampIsDead(db, e.row, e.cost);
      assert false;
    }
  }

  // From an exact state a step stays exact if and only if every key it totally resets has no priced
  // row in the reset's own millisecond.
  lemma StepExact(env: Env, db: Db, op: Op, clock: int, now: int)
    requires Valid(db) && Timed(db, clock) && clock <= now && Exact(db)
    ensures Exact(Step(env, db, op, now)) <==> CleanReset(env, db, op, now)
  {
    StepHasEffect(env, db, op, now);
    var e, after := EffectOf(env, db, op, now), Step(env, db, op, now);
    forall k | k in db.keys
      ensures k in after.keys && (Drift(after, k) == 0 <==> !ResetsTotal(e, k) || NoCostAt(db, k, now))
    {
      EffectExact(db, e, clock, now, k);
    }
    forall k | k in after.keys && k !in db.keys ensures Drift(after, k) == 0 {
      NewKeyDrift(db, e, now, k);
    }
  }

  lemma ResetDriftZero(db: Db, k: Id, now: int)
    requires forall l | l in db.ledger :: db.ledger[l].cost >= 0
    ensures SumMap(db.ledger, CostSince(k, Some(now))) == 0 <==> NoCostAt(db, k, now)
  {
    var f := CostSince(k, Some(now));
    SumZero(db.ledger, f);
    if forall l | l in db.ledger :: f(l, db.ledger[l]) == 0 {
      forall l | l in db.ledger && db.ledger[l].key == k && db.ledger[l].created >= now ensures db.ledger[l].cost == 0 {
        assert f(l, db.ledger[l]) == db.ledger[l].cost;
      }
    }
  }

  ghost predicate CleanRun(env: Env, db: Db, es: seq<Event>) {
    es != [] ==>
      var n := |es| - 1;
      CleanRun(env, db, es[..n]) && CleanReset(env, Run(env, db, es[..n]), es[n].op, es[n].at)
  }

  // settled equals the ledger in every state of every run whose total resets are clean.
  lemma {:induction false} RunExact(env: Env, db: Db, es: seq<Event>, clock: int)
    requires Valid(db) && Timed(db, clock) && Clocked(clock, es) && Exact(db) && CleanRun(env, db, es)
    ensures Exact(Run(env, db, es))
  {
    if es != [] {
      var n := |es| - 1;
      RunExact(env, db, es[..n], clock);
      RunValid(env, db, es[..n]);
      RunTimed(env, db, es[..n], clock);
      StepExact(env, Run(env, db, es[..n]), es[n].op, ClockAfter(clock, es[..n]), es[n].at);
    }
  }

  // A reset strictly later than everything stored is clean.
  lemma LaterResetIsClean(env: Env, db: Db, op: Op, clock: int, now: int)
    requires Timed(db, clock) && clock < now
    ensures CleanReset(env, db, op, now)
  {
  }

  // One key with one settlement of 5 in millisecond 7.
  function OneSettlement(policy: Policy): Db {
    Db(map["c" := true],
       map["k" := Key("c", false, policy, 5, 0, None, None, None, None)],
       map["r" := Reservation("c", "k", "i", "m", 1, 5, Some(5), Settled, 7, 7, None)],
       map["l" := Row("r", "c", "k", "m", 1, 5, 7, false)])
  }

  lemma OneSettlementIsExact(policy: Policy)
    requires policy.Valid()
    ensures var db := OneSettlement(policy); Valid(db) && Timed(db, 7) && Drift(db, "k") == 0
  {
    var db := OneSettlement(policy);
    SingleSum("l", db.ledger["l"], CostSince("k", None));
    OneSettlementIsValid(policy);
  }

  lemma OneSettlementIsValid(policy: Policy)
    requires policy.Valid()
    ensures Valid(OneSettlement(policy))
  {
    var db := OneSettlement(policy);
    SingleSum("r", db.reservations["r"], HeldBy("k"));
    assert db.ledger["l"].reservation == "r";
    assert HasRow(db.ledger, "r");
  }

  // The collision is real: a settlement of 5 and a total reset in the same millisecond leave the
  // counter at 0 while the ledger counts 5, and repricing that row to 0 then takes the clamp.
  lemma ResetCollision(policy: Policy)
    ensures var db := OneSettlement(policy);
            var after := ResetSpend(db, ["k"], false, Scopes(true, false, false, false), 7).0;
            && "k" in after.keys && Drift(after, "k") == 5
            && RepriceClamps(after.keys["k"], after.ledger["l"], 0)
  {
    var db := OneSettlement(policy);
    SingleSum("l", db.ledger["l"], CostSince("k", Some(7)));
    var ids: seq<Id> := ["k"];
    assert ids[0] in ids;
    assert ResetTargets(db, ids, false) == {"k"};
  }

  lemma SingleSum<V>(k: Id, v: V, f: (Id, V) -> int)
    ensures SumMap(map[k := v], f) == f(k, v)
  {
    var m: map<Id, V> := map[];
    SumEmpty(f);
    SumUpdate(m, f, k, v);
    assert m[k := v] == map[k := v];
  }
}
