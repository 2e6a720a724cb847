// Token caps (internal/store/model_token_limits.go): which policy decides, what the single
// pre-filtered query sees, and what a successful reserve guarantees.
module TokenCaps {
  import opened Base
  import opened Calendar
  import opened Sums
  import opened Ledger
  import opened LedgerInvariant
  import opened LedgerSteps
  import opened LedgerRuns
  import opened LedgerBounds
  import opened LedgerLimits

  // ---------- The winning policy ----------

  // The winner matches the model, is the exact name when there is one and otherwise a longest match.
  lemma WinnerMatches(env: Env, limits: seq<TokenLimit>, model: string)
    requires model != "" && SomeMatch(env, limits, model)
    ensures var w := Winner(env, limits, model);
            && w in limits && Matches(env, w.pattern, model)
            && ((exists l | l in limits :: l.pattern == model) ==> w.pattern == model)
            && (w.pattern != model ==>
              forall l | l in limits && Matches(env, l.pattern, model) :: |l.pattern| <= |w.pattern|)
  {
    WinnerExists(env, limits, model);
    var i: nat :| IsWinner(env, limits, model, i) && Winner(env, limits, model) == limits[i];
  }

  // ---------- The pre-filtered query ----------

  // Matching tokens that a period counts and a query from `from` does not see.
  ghost predicate RowHidden(env: Env, k: Id, pattern: string, start: int, from: int, row: Row) {
    row.key == k && start <= row.created < from && Matches(env, pattern, row.model) && row.tokens != 0
  }

  ghost predicate HoldHidden(env: Env, k: Id, pattern: string, start: int, from: int, r: Reservation) {
    r.key == k && r.status.Held? && start <= r.created < from && Matches(env, pattern, r.model) && r.estimate != 0
  }

  ghost predicate NoneHidden(env: Env, db: Db, k: Id, pattern: string, start: int, from: int) {
    && (forall l | l in db.ledger :: !RowHidden(env, k, pattern, start, from, db.ledger[l]))
    && (forall id | id in db.reservations :: !HoldHidden(env, k, pattern, start, from, db.reservations[id]))
  }

  lemma RowsSeen(env: Env, db: Db, k: Id, pattern: string, start: int, from: int)
    requires Valid(db)
    ensures var seen := SumMap(db.ledger, RowTokens(env, k, pattern, Max(start, from)));
            var all := SumMap(db.ledger, RowTokens(env, k, pattern, start));
            && seen <= all
            && (seen == all <==> forall l | l in db.ledger :: !RowHidden(env, k, pattern, start, from, db.ledger[l]))
  {
    var hidden := (l: Id, row: Row) => if RowHidden(env, k, pattern, start, from, row) then row.tokens else 0;
    SumAdd(db.ledger, RowTokens(env, k, pattern, Max(start, from)), hidden, RowTokens(env, k, pattern, start));
    forall l | l in db.ledger ensures hidden(l, db.ledger[l]) >= 0 {
      assert RowFits(db.reservations, db.ledger[l]);
    }
    SumNonNegative(db.ledger, hidden);
    SumZero(db.ledger, hidden);
    assert forall l | l in db.ledger ::
        hidden(l, db.ledger[l]) == 0 <==> !RowHidden(env, k, pattern, start, from, db.ledger[l]);
  }

  lemma HoldsSeen(env: Env, db: Db, k: Id, pattern: string, start: int, from: int)
    requires Valid(db)
    ensures var seen := SumMap(db.reservations, HeldTokens(env, k, pattern, Max(start, from)));
            var all := SumMap(db.reservations, HeldTokens(env, k, pattern, start));
            && seen <= all
            && (seen == all <==>
                forall id | id in db.reservations :: !HoldHidden(env, k, pattern, start, from, db.reservations[id]))
  {
    var hidden := (id: Id, r: Reservation) => if HoldHidden(env, k, pattern, start, from, r) then r.estimate else 0;
    SumAdd(db.reservations, HeldTokens(env, k, pattern, Max(start, from)), hidden, HeldTokens(env, k, pattern, start));
    forall id | id in db.reservations ensures hidden(id, db.reservations[id]) >= 0 {
      assert ReservationFits(db.keys, db.reservations[id]);
    }
    SumNonNegative(db.reservations, hidden);
    SumZero(db.reservations, hidden);
    assert forall id | id in db.reservations ::
        hidden(id, db.reservations[id]) == 0 <==> !HoldHidden(env, k, pattern, start, from, db.reservations[id]);
  }

  // A query from `from` counts a period in full exactly when it hides none of its tokens.
  lemma SeenPlusHidden(env: Env, db: Db, k: Id, pattern: string, start: int, from: int)
    requires Valid(db)
    ensures QueriedTokens(env, db, k, pattern, start, from) <= TokensSince(env, db, k, pattern, start)
    ensures QueriedTokens(env, db, k, pattern, start, from) == TokensSince(env, db, k, pattern, start)
            <==> NoneHidden(env, db, k, pattern, start, from)
  {
    RowsSeen(env, db, k, pattern, start, from);
    HoldsSeen(env, db, k, pattern, start, from);
  }

  // The scan starts no later than any calendar period, and no later than the total reset unless
  // that is 0, which the scan takes for "not set".
  lemma QueryCoversPeriods(s: TokenStarts)
    requires s.daily > 0 && s.weekly > 0 && s.monthly > 0
    ensures QueryFrom(s) <= s.daily && QueryFrom(s) <= s.weekly && QueryFrom(s) <= s.monthly
    ensures QueryFrom(s) <= s.total <==> s.total != 0
  {
  }

  // One query equals four independent sums: the three calendar periods always; the total exactly
  // when nothing counted by it is older than the scan, which always holds once the total was reset.
  lemma OneQueryIsFourSums(env: Env, db: Db, k: Id, pattern: string, s: TokenStarts)
    requires Valid(db) && s.daily > 0 && s.weekly > 0 && s.monthly > 0
    ensures var from := QueryFrom(s);
            && QueriedTokens(env, db, k, pattern, s.daily, from) == TokensSince(env, db, k, pattern, s.daily)
            && QueriedTokens(env, db, k, pattern, s.weekly, from) == TokensSince(env, db, k, pattern, s.weekly)
            && QueriedTokens(env, db, k, pattern, s.monthly, from) == TokensSince(env, db, k, pattern, s.monthly)
            && (s.total != 0 ==>
                  QueriedTokens(env, db, k, pattern, s.total, from) == TokensSince(env, db, k, pattern, s.total))
    ensures QueriedTokens(env, db, k, pattern, s.total, QueryFrom(s)) == TokensSince(env, db, k, pattern, s.total)
            <==> NoneHidden(env, db, k, pattern, s.total, QueryFrom(s))
  {
    QueryCoversPeriods(s);
    SeenPlusHidden(env, db, k, pattern, s.total, QueryFrom(s));
  }

  // ---------- What a reserve guarantees ----------

  function StartOf(s: TokenStarts, p: Option<Period>): int {
    match p
    case None => s.total
    case Some(Daily) => s.daily
    case Some(Weekly) => s.weekly
    case Some(Monthly) => s.monthly
  }

  function CapOf(limit: TokenLimit, p: Option<Period>): nat {
    match p
    case None => limit.total
    case Some(Daily) => limit.daily
    case Some(Weekly) => limit.weekly
    case Some(Monthly) => limit.monthly
  }

  // A limit lets an estimate pass exactly when every cap still has room for it.
  lemma LimitPasses(env: Env, db: Db, k: Id, limit: TokenLimit, s: TokenStarts, estimate: int)
    ensures LimitRefusal(env, db, k, limit, s, estimate).None? <==>
            forall p :: CapOf(limit, p) > 0 ==>
              QueriedTokens(env, db, k, limit.pattern, StartOf(s, p), QueryFrom(s)) + estimate <= CapOf(limit, p)
  {
    var from := QueryFrom(s);
    forall p: Option<Period> | LimitRefusal(env, db, k, limit, s, estimate).None?
      ensures !CapExceeded(env, db, k, limit.pattern, CapOf(limit, p), StartOf(s, p), from, estimate)
    {
      match p {
        case None =>
        case Some(Daily) =>
        case Some(Weekly) =>
        case Some(Monthly) =>
      }
    }
    if forall p :: CapOf(limit, p) > 0 ==>
      QueriedTokens(env, db, k, limit.pattern, StartOf(s, p), from) + estimate <= CapOf(limit, p) {
      assert CapOf(limit, None) == limit.total && CapOf(limit, Some(Daily)) == limit.daily;
      assert CapOf(limit, Some(Weekly)) == limit.weekly && CapOf(limit, Some(Monthly)) == limit.monthly;
    }
  }

  // The clock lies after 1970-01-05, and the month starts at or before now.
  ghost predicate CalendarAt(env: Env, now: int) {
    WeekStart(now) > 0 && 0 < env.monthStart(now) <= now
  }

  lemma StartsArePositive(env: Env, key: Key, now: int)
    requires CalendarAt(env, now) && KeyTimed(key, now)
    ensures var s := StartsOf(env, key, now);
            0 < s.daily <= now && 0 < s.weekly <= now && 0 < s.monthly <= now && s.total <= now
  {
    DayStartIsMidnight(now);
    WeekStartIsMonday(now);
  }

  // A new hold adds its estimate to every period in which it is created and matches.
  lemma HoldAddsTokens(env: Env, db: Db, req: Request, now: int, pattern: string, start: int)
    requires CanHold(db, req) && start <= now && Matches(env, pattern, req.model)
    ensures TokensSince(env, WithHold(db, req, now), req.key, pattern, start)
         == TokensSince(env, db, req.key, pattern, start) + req.estimate
  {
    SumUpdate(db.reservations, HeldTokens(env, req.key, pattern, start), req.id, NewHold(req, now));
  }

  // The cap p is enforced in full: a calendar cap, or the total cap of a key that was reset.
  predicate FullyCounted(key: Key, p: Option<Period>) {
    p.Some? || (key.totalReset.Some? && key.totalReset.value != 0)
  }

  // After a successful reserve, settled tokens plus in-flight estimates of all models sharing the
  // winning pattern, the new estimate included, are within every such cap.
  lemma CapsHoldAfterReserve(env: Env, db: Db, req: Request, now: int, p: Option<Period>)
    requires Valid(db) && CanHold(db, req) && Refusal(env, db, req, now).None?
    requires CalendarAt(env, now) && KeyTimed(db.keys[req.key], now)
    requires req.model != "" && SomeMatch(env, db.keys[req.key].policy.limits, req.model)
    ensures var key := db.keys[req.key];
            var limit := Winner(env, key.policy.limits, req.model);
            CapOf(limit, p) > 0 && FullyCounted(key, p) ==>
              TokensSince(env, WithHold(db, req, now), req.key, limit.pattern, StartOf(StartsOf(env, key, now), p))
                <= CapOf(limit, p)
  {
    var key := db.keys[req.key];
    var limit, s := Winner(env, key.policy.limits, req.model), StartsOf(env, key, now);
    if CapOf(limit, p) > 0 && FullyCounted(key, p) {
      AdmittedHold(env, db, req, now);
      WinnerMatches(env, key.policy.limits, req.model);
      StartsArePositive(env, key, now);
      LimitPasses(env, db, req.key, limit, s, req.estimate);
      HoldAddsTokens(env, db, req, now, limit.pattern, StartOf(s, p));
      SeenInFull(env, db, key, req.key, limit.pattern, now, p);
    }
  }

  lemma SeenInFull(env: Env, db: Db, key: Key, k: Id, pattern: string, now: int, p: Option<Period>)
    requires Valid(db) && CalendarAt(env, now) && KeyTimed(key, now) && FullyCounted(key, p)
    ensures var s := StartsOf(env, key, now);
            QueriedTokens(env, db, k, pattern, StartOf(s, p), QueryFrom(s))
              == TokensSince(env, db, k, pattern, StartOf(s, p))
  {
    var s := StartsOf(env, key, now);
    StartsArePositive(env, key, now);
    OneQueryIsFourSums(env, db, k, pattern, s);
  }

  // A key with a total cap of 5 on model m that settled 10 tokens of it in millisecond 7.
  const CAPPED_POLICY: Policy := Policy(true, None, None, 0, 0, 0, 0, [], [TokenLimit("m", 5, 0, 0, 0)], false)

  function OldUsage(): Db {
    var db := OneSettlement(CAPPED_POLICY);
    db.(ledger := map["l" := db.ledger["l"].(tokens := 10)])
  }

  const NEXT_REQUEST: Request := Request("s", "c", "k", "j", "m", 1, 0)

  lemma OldUsageIsRepriced()
    ensures WithReprice(OneSettlement(CAPPED_POLICY), "l", 10, 5, 7) == OldUsage()
  {
  }

  lemma OldUsageIsValid()
    ensures Valid(OldUsage())
  {
    OneSettlementIsValid(CAPPED_POLICY);
    RepriceValid(OneSettlement(CAPPED_POLICY), "l", 10, 5, 7);
    OldUsageIsRepriced();
  }

  // The total cap of a key that was never reset is not enforced: once the calendar periods began
  // after its usage, a reserve succeeds although twice the cap is settled already.
  lemma NeverResetTotalUndercounts(env: Env, now: int)
    requires CalendarAt(env, now) && WeekStart(now) > 7 && env.monthStart(now) > 7
    ensures var db := OldUsage();
            var (after, r) := Reserve(env, db, NEXT_REQUEST, now);
            && Valid(db) && db.keys["k"].totalReset.None? && db.keys["k"].policy == CAPPED_POLICY
            && TokensSince(env, db, "k", "m", 0) == 10
            && r.Ok? && after == WithHold(db, NEXT_REQUEST, now) && TokensSince(env, after, "k", "m", 0) == 11
  {
    var db := OldUsage();
    var s := StartsOf(env, db.keys["k"], now);
    OldUsageIsValid();
    StartsArePositive(env, db.keys["k"], now);
    DayStartIsMidnight(now);
    WeekStartIsMonday(now);
    assert QueryFrom(s) > 7;
    OldTokens(env, 0);
    OldTokens(env, QueryFrom(s));
    CappedWinner(env);
    assert TokenRefusal(env, db, "k", "m", 1, now).None?;
    assert !HasIdem(db, "c", "j");
    NextPasses(env, now);
    HoldAddsTokens(env, db, NEXT_REQUEST, now, "m", 0);
  }

  lemma OldTokens(env: Env, start: int)
    ensures TokensSince(env, OldUsage(), "k", "m", start) == if start <= 7 then 10 else 0
  {
    var db := OldUsage();
    SingleSum("l", db.ledger["l"], RowTokens(env, "k", "m", start));
    SingleSum("r", db.reservations["r"], HeldTokens(env, "k", "m", start));
  }

  lemma CappedWinner(env: Env)
    ensures SomeMatch(env, CAPPED_POLICY.limits, "m")
            && Winner(env, CAPPED_POLICY.limits, "m") == CAPPED_POLICY.limits[0]
  {
    var l := CAPPED_POLICY.limits[0];
    assert l in CAPPED_POLICY.limits && Matches(env, l.pattern, "m");
    WinnerMatches(env, CAPPED_POLICY.limits, "m");
  }

  lemma NextPasses(env: Env, now: int)
    requires TokenRefusal(env, OldUsage(), "k", "m", 1, now).None?
    ensures Refusal(env, OldUsage(), NEXT_REQUEST, now).None?
  {
    assert EarlyRefusal(env, OldUsage(), NEXT_REQUEST, now).None?;
  }
}
