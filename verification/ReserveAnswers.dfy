// What Reserve answers (internal/store/reserve.go, model_token_limits.go), check by check, written out
// over the rows of the tables and the calendar.
module ReserveAnswers {
  import opened Base
  import opened Calendar
  import opened Sums
  import opened Ledger
  import opened LedgerInvariant
  import opened LedgerSteps
  import opened LedgerLimits
  import opened TokenCaps

  // ---------- The calendar ----------

  // The UTC midnight and the UTC Monday midnight now lies after; 1970-01-05 was a Monday.
  ghost predicate TodayFrom(midnight: int, now: int) {
    midnight % 86_400_000 == 0 && midnight <= now < midnight + 86_400_000
  }

  ghost predicate ThisWeekFrom(monday: int, now: int) {
    && monday % 86_400_000 == 0 && monday / 86_400_000 % 7 == 4
    && monday <= now < monday + 604_800_000
  }

  // Where a count begins: the calendar start or a later reset; a missing reset is time 0.
  function Since(start: int, reset: Option<int>): int {
    Max(start, if reset.Some? then reset.value else 0)
  }

  // The starts of the three periods of a key.
  datatype Starts = Starts(day: int, week: int, month: int)

  ghost predicate StartsAt(env: Env, key: Key, now: int, s: Starts) {
    && (exists midnight :: TodayFrom(midnight, now) && s.day == Since(midnight, key.dailyReset))
    && (exists monday :: ThisWeekFrom(monday, now) && s.week == Since(monday, key.weeklyReset))
    && s.month == Since(env.monthStart(now), key.monthlyReset)
  }

  lemma TodayIsDayStart(midnight: int, now: int)
    requires TodayFrom(midnight, now)
    ensures midnight == DayStart(now)
  {
    DayStartIsMidnight(now);
    assert IsMidnight(midnight) && midnight <= now < midnight + DAY;
  }

  lemma ThisWeekIsWeekStart(monday: int, now: int)
    requires ThisWeekFrom(monday, now)
    ensures monday == WeekStart(now)
  {
    WeekStartIsMonday(now);
    var day := monday / 86_400_000;
    assert day % 7 == 4 ==> (day + 3) % 7 == 0;
    assert IsMonday(monday) && monday <= now < monday + 7 * DAY;
  }

  lemma StartsAreEffective(env: Env, key: Key, now: int, s: Starts)
    requires StartsAt(env, key, now, s)
    ensures s.day == EffectiveStart(env, key, Daily, now)
    ensures s.week == EffectiveStart(env, key, Weekly, now)
    ensures s.month == EffectiveStart(env, key, Monthly, now)
  {
    var midnight :| TodayFrom(midnight, now) && s.day == Since(midnight, key.dailyReset);
    var monday :| ThisWeekFrom(monday, now) && s.week == Since(monday, key.weeklyReset);
    TodayIsDayStart(midnight, now);
    ThisWeekIsWeekStart(monday, now);
  }

  // ---------- What counts ----------

  ghost predicate Names(env: Env, pattern: string, model: string) {
    pattern != "" && model != "" && (model == pattern || env.glob(pattern, model))
  }

  ghost function RowCosts(db: Db, k: Id, from: int): int {
    SumMap(db.ledger, (l: Id, row: Row) => if row.key == k && row.created >= from then row.cost else 0)
  }

  ghost function HoldAmounts(db: Db, k: Id, from: int): int {
    SumMap(db.reservations,
           (id: Id, r: Reservation) => if r.key == k && r.status == Held && r.created >= from then r.held else 0)
  }

  ghost function RowUse(env: Env, db: Db, k: Id, pattern: string, from: int): int {
    SumMap(db.ledger,
           (l: Id, row: Row) =>
             if row.key == k && row.created >= from && Names(env, pattern, row.model) then row.tokens else 0)
  }

  ghost function HoldUse(env: Env, db: Db, k: Id, pattern: string, from: int): int {
    SumMap(db.reservations,
           (id: Id, r: Reservation) =>
             if r.key == k && r.status == Held && r.created >= from && Names(env, pattern, r.model)
             then r.estimate else 0)
  }

  // Settled and held, money and tokens.
  ghost function Spent(db: Db, k: Id, from: int): int {
    RowCosts(db, k, from) + HoldAmounts(db, k, from)
  }

  ghost function TokenUse(env: Env, db: Db, k: Id, pattern: string, from: int): int {
    RowUse(env, db, k, pattern, from) + HoldUse(env, db, k, pattern, from)
  }

  // The executions in flight, as a set.
  ghost function Executing(db: Db, k: Id): set<Id> {
    set id | id in db.reservations && db.reservations[id].key == k && db.reservations[id].status == Held
             && db.reservations[id].finished == None
  }

  lemma SpendIsRowsAndHolds(db: Db, k: Id, from: int)
    ensures SpendSince(db, k, from) == Spent(db, k, from)
  {
    SumSame(db.ledger, db.ledger, CostSince(k, Some(from)),
            (l: Id, row: Row) => if row.key == k && row.created >= from then row.cost else 0);
    SumSame(db.reservations, db.reservations, HeldSince(k, from),
            (id: Id, r: Reservation) => if r.key == k && r.status == Held && r.created >= from then r.held else 0);
  }

  lemma TokensAreRowsAndHolds(env: Env, db: Db, k: Id, pattern: string, from: int)
    ensures TokensSince(env, db, k, pattern, from) == TokenUse(env, db, k, pattern, from)
  {
    SumSame(db.ledger, db.ledger, RowTokens(env, k, pattern, from),
            (l: Id, row: Row) =>
              if row.key == k && row.created >= from && Names(env, pattern, row.model) then row.tokens else 0);
    SumSame(db.reservations, db.reservations, HeldTokens(env, k, pattern, from),
            (id: Id, r: Reservation) =>
              if r.key == k && r.status == Held && r.created >= from && Names(env, pattern, r.model)
              then r.estimate else 0);
  }

  lemma ActiveIsExecuting(db: Db, k: Id)
    ensures Active(db, k) == |Executing(db, k)|
  {
    SumCounts(db.reservations, ActiveBy(k), Executing(db, k));
  }

  // ---------- The checks ----------

  datatype Check = Check(passes: bool, error: Error)

  // The error of the first check that fails.
  ghost function Failure(checks: seq<Check>): Option<Error> {
    if checks == [] then None
    else if !checks[0].passes then Some(checks[0].error)
    else Failure(checks[1..])
  }

  // A limit of 0 is no limit.
  ghost predicate Fits(limit: int, used: int, more: int) {
    limit == 0 || used + more <= limit
  }

  // Without a total reset the total cap counts no further back than the earliest period.
  function TotalFrom(key: Key, s: Starts): int {
    if key.totalReset.Some? && key.totalReset.value != 0 then key.totalReset.value else Min(s.day, Min(s.week, s.month))
  }

  // Whether the key may be used for the model at all.
  ghost function KeyChecks(env: Env, db: Db, req: Request, now: int): seq<Check>
    requires req.key in db.keys
  {
    var key := db.keys[req.key];
    var p := key.policy;
    [Check(!key.revoked, KeyRevoked),
     Check(p.enabled, KeyDisabled),
     Check(p.expires.None? || now < p.expires.value, KeyExpired),
     Check(req.model != "" && (p.allowed == [] || exists m | m in p.allowed :: Names(env, m, req.model)),
           ModelNotAllowed)]
  }

  // The token caps of the policy that decides for the model.
  ghost function TokenChecks(env: Env, db: Db, req: Request, s: Starts): seq<Check>
    requires req.key in db.keys
  {
    var key := db.keys[req.key];
    if exists l | l in key.policy.limits :: Names(env, l.pattern, req.model) then
      assert SomeMatch(env, key.policy.limits, req.model);
      var k, w, more := req.key, Winner(env, key.policy.limits, req.model), req.estimate;
      [Check(Fits(w.total, TokenUse(env, db, k, w.pattern, TotalFrom(key, s)), more), TotalTokensExceeded),
       Check(Fits(w.daily, TokenUse(env, db, k, w.pattern, s.day), more), PeriodTokensExceeded(Daily)),
       Check(Fits(w.weekly, TokenUse(env, db, k, w.pattern, s.week), more), PeriodTokensExceeded(Weekly)),
       Check(Fits(w.monthly, TokenUse(env, db, k, w.pattern, s.month), more), PeriodTokensExceeded(Monthly))]
    else
      [Check(!key.policy.unmatchedDisabled, ModelNotAllowed)]
  }

  // Request slots, the three spend limits, the total quota and the id.
  ghost function RoomChecks(db: Db, req: Request, s: Starts): seq<Check>
    requires req.key in db.keys
  {
    var key := db.keys[req.key];
    var p := key.policy;
    [Check(p.maxConcurrent <= 0 || |Executing(db, req.key)| < p.maxConcurrent, ConcurrentLimit),
     Check(Fits(p.daily, Spent(db, req.key, s.day), req.amount), SpendExceeded(Daily)),
     Check(Fits(p.weekly, Spent(db, req.key, s.week), req.amount), SpendExceeded(Weekly)),
     Check(Fits(p.monthly, Spent(db, req.key, s.month), req.amount), SpendExceeded(Monthly)),
     Check(p.quota.None? || p.quota.value == 0 || key.settled + key.held + req.amount <= p.quota.value,
           InsufficientQuota),
     Check(req.id !in db.reservations, StorageConflict)]
  }

  // ---------- The answers ----------

  lemma OneByOne(c: Check, rest: seq<Check>)
    ensures Failure([c] + rest) == if c.passes then Failure(rest) else Some(c.error)
  {
    assert ([c] + rest)[1..] == rest;
  }

  lemma {:induction false} OneAfterTheOther(a: seq<Check>, b: seq<Check>)
    ensures Failure(a + b) == if Failure(a).Some? then Failure(a) else Failure(b)
  {
    if a == [] {
      assert a + b == b;
    } else {
      OneAfterTheOther(a[1..], b);
      OneByOne(a[0], a[1..]);
      OneByOne(a[0], a[1..] + b);
      assert a == [a[0]] + a[1..] && a + b == [a[0]] + (a[1..] + b);
    }
  }

  lemma TwoChecks(a: Check, b: Check)
    ensures Failure([a, b]) == if !a.passes then Some(a.error) else if !b.passes then Some(b.error) else None
  {
    OneByOne(b, []);
    OneByOne(a, [b]);
    assert [a] + [b] == [a, b] && [b] + [] == [b];
  }

  lemma FourChecks(a: Check, b: Check, c: Check, d: Check)
    ensures Failure([a, b, c, d])
         == if !a.passes then Some(a.error) else if !b.passes then Some(b.error)
            else if !c.passes then Some(c.error) else if !d.passes then Some(d.error) else None
  {
    TwoChecks(a, b);
    TwoChecks(c, d);
    OneAfterTheOther([a, b], [c, d]);
    assert [a, b] + [c, d] == [a, b, c, d];
  }

  lemma TokensDecide(env: Env, db: Db, req: Request, now: int, s: Starts)
    requires req.key in db.keys && StartsAt(env, db.keys[req.key], now, s) && s.day > 0 && s.week > 0 && s.month > 0
    ensures TokenRefusal(env, db, req.key, req.model, req.estimate, now) == Failure(TokenChecks(env, db, req, s))
  {
    var key := db.keys[req.key];
    var limits, k := key.policy.limits, req.key;
    StartsAreEffective(env, key, now, s);
    if exists l | l in limits :: Names(env, l.pattern, req.model) {
      assert SomeMatch(env, limits, req.model);
      var w, from := Winner(env, limits, req.model), QueryFrom(StartsOf(env, key, now));
      TokensAreRowsAndHolds(env, db, k, w.pattern, TotalFrom(key, s));
      TokensAreRowsAndHolds(env, db, k, w.pattern, s.day);
      TokensAreRowsAndHolds(env, db, k, w.pattern, s.week);
      TokensAreRowsAndHolds(env, db, k, w.pattern, s.month);
      assert Max(StartsOf(env, key, now).total, from) == TotalFrom(key, s);
      assert Max(s.day, from) == s.day && Max(s.week, from) == s.week && Max(s.month, from) == s.month;
      var checks := TokenChecks(env, db, req, s);
      FourChecks(checks[0], checks[1], checks[2], checks[3]);
      assert checks == [checks[0], checks[1], checks[2], checks[3]];
    } else {
      assert !SomeMatch(env, limits, req.model);
    }
  }

  lemma KeyDecides(env: Env, db: Db, req: Request, now: int)
    requires req.key in db.keys
    ensures var key := db.keys[req.key];
            Failure(KeyChecks(env, db, req, now))
            == if key.revoked then Some(KeyRevoked)
               else if !key.policy.enabled then Some(KeyDisabled)
               else if key.policy.expires.Some? && key.policy.expires.value <= now then Some(KeyExpired)
               else if !ModelAllowed(env, key.policy.allowed, req.model) then Some(ModelNotAllowed)
               else None
  {
    var checks := KeyChecks(env, db, req, now);
    FourChecks(checks[0], checks[1], checks[2], checks[3]);
    assert checks == [checks[0], checks[1], checks[2], checks[3]];
    var allowed := db.keys[req.key].policy.allowed;
    assert forall m :: Names(env, m, req.model) == Matches(env, m, req.model);
    assert ModelAllowed(env, allowed, req.model) == checks[3].passes;
  }

  // One period limit: rows and holds since the start of the period, and the new amount.
  lemma PeriodDecides(env: Env, db: Db, k: Id, amount: int, p: Period, now: int, from: int)
    requires k in db.keys && from == EffectiveStart(env, db.keys[k], p, now)
    ensures !SpendRefused(env, db, k, amount, p, now)
            <==> Fits(db.keys[k].policy.SpendLimit(p), Spent(db, k, from), amount)
  {
    SpendIsRowsAndHolds(db, k, from);
  }

  lemma RoomDecides(env: Env, db: Db, req: Request, now: int, s: Starts)
    requires req.key in db.keys && StartsAt(env, db.keys[req.key], now, s)
    ensures var key := db.keys[req.key];
            Failure(RoomChecks(db, req, s))
            == if key.policy.maxConcurrent > 0 && Active(db, req.key) >= key.policy.maxConcurrent
               then Some(ConcurrentLimit)
               else if SpendRefused(env, db, req.key, req.amount, Daily, now) then Some(SpendExceeded(Daily))
               else if SpendRefused(env, db, req.key, req.amount, Weekly, now) then Some(SpendExceeded(Weekly))
               else if SpendRefused(env, db, req.key, req.amount, Monthly, now) then Some(SpendExceeded(Monthly))
               else if key.policy.Total() != 0 && Remaining(key) < req.amount then Some(InsufficientQuota)
               else if req.id in db.reservations then Some(StorageConflict)
               else None
  {
    var checks := RoomChecks(db, req, s);
    StartsAreEffective(env, db.keys[req.key], now, s);
    ActiveIsExecuting(db, req.key);
    PeriodDecides(env, db, req.key, req.amount, Daily, now, s.day);
    PeriodDecides(env, db, req.key, req.amount, Weekly, now, s.week);
    PeriodDecides(env, db, req.key, req.amount, Monthly, now, s.month);
    SixChecks(checks[0], checks[1], checks[2], checks[3], checks[4], checks[5]);
  }

  lemma SixChecks(a: Check, b: Check, c: Check, d: Check, e: Check, f: Check)
    ensures Failure([a, b, c, d, e, f])
         == if !a.passes then Some(a.error) else if !b.passes then Some(b.error)
            else if !c.passes then Some(c.error) else if !d.passes then Some(d.error)
            else if !e.passes then Some(e.error) else if !f.passes then Some(f.error) else None
  {
    FourChecks(a, b, c, d);
    TwoChecks(e, f);
    OneAfterTheOther([a, b, c, d], [e, f]);
    assert [a, b, c, d] + [e, f] == [a, b, c, d, e, f];
  }

  ghost function AllChecks(env: Env, db: Db, req: Request, now: int, s: Starts): seq<Check>
    requires req.key in db.keys
  {
    KeyChecks(env, db, req, now) + (TokenChecks(env, db, req, s) + RoomChecks(db, req, s))
  }

  lemma ChecksDecide(env: Env, db: Db, req: Request, now: int, s: Starts)
    requires req.key in db.keys
    requires StartsAt(env, db.keys[req.key], now, s) && s.day > 0 && s.week > 0 && s.month > 0
    ensures KeyRefusal(env, db, req, now) == Failure(AllChecks(env, db, req, now, s))
  {
    KeyDecides(env, db, req, now);
    TokensDecide(env, db, req, now, s);
    RoomDecides(env, db, req, now, s);
    OneAfterTheOther(TokenChecks(env, db, req, s), RoomChecks(db, req, s));
    OneAfterTheOther(KeyChecks(env, db, req, now), TokenChecks(env, db, req, s) + RoomChecks(db, req, s));
  }

  // Reserve refuses a new request of a known caller and key with the error of the first check that
  // fails, and otherwise holds exactly the amount asked for. The clock lies after 1970-01-05.
  lemma ReserveAnswers(env: Env, db: Db, req: Request, now: int, s: Starts)
    requires req.caller != "" && req.key != "" && req.idem != "" && req.estimate > 0 && req.amount >= 0
    requires forall id | id in db.reservations ::
               db.reservations[id].caller != req.caller || db.reservations[id].idem != req.idem
    requires req.caller in db.callers && db.callers[req.caller]
    requires req.key in db.keys && db.keys[req.key].caller == req.caller
    requires StartsAt(env, db.keys[req.key], now, s) && s.day > 0 && s.week > 0 && s.month > 0
    ensures var key, failure := db.keys[req.key], Failure(AllChecks(env, db, req, now, s));
            var hold := Reservation(req.caller, req.key, req.idem, req.model, req.estimate, req.amount, None, Held,
                                    now, now, None);
            Reserve(env, db, req, now)
            == if failure.Some? then (db, Err(failure.value))
               else (Db(db.callers, db.keys[req.key := key.(held := key.held + req.amount)],
                        db.reservations[req.id := hold], db.ledger), Ok(hold))
  {
    ChecksDecide(env, db, req, now, s);
    assert !HasIdem(db, req.caller, req.idem);
  }

  // The error reported is that of a check that fails while all checks before it pass.
  lemma {:induction false} FailureIsFirst(checks: seq<Check>)
    ensures Failure(checks).None? <==> forall i | 0 <= i < |checks| :: checks[i].passes
    ensures forall i | 0 <= i < |checks| && !checks[i].passes && (forall j | 0 <= j < i :: checks[j].passes) ::
              Failure(checks) == Some(checks[i].error)
  {
    if checks != [] {
      var rest := checks[1..];
      FailureIsFirst(rest);
      assert forall i | 0 <= i < |rest| :: rest[i] == checks[i + 1];
      if checks[0].passes {
        forall i | 0 <= i < |checks| && !checks[i].passes && (forall j | 0 <= j < i :: checks[j].passes)
          ensures Failure(checks) == Some(checks[i].error)
        {
          assert !rest[i - 1].passes && forall j | 0 <= j < i - 1 :: rest[j].passes;
        }
        assert Failure(rest).None? ==> forall i | 0 < i < |checks| :: checks[i] == rest[i - 1];
      }
    }
  }

  // A request that passes all checks before them is refused for the daily, weekly or monthly limit
  // exactly when that limit is the first that rows and holds since the UTC midnight, the Monday
  // midnight or the month start (or a later reset of the limit), plus the amount, exceed.
  lemma SpendLimitsDecide(env: Env, db: Db, req: Request, now: int, s: Starts)
    requires req.caller != "" && req.key != "" && req.idem != "" && req.estimate > 0 && req.amount >= 0
    requires forall id | id in db.reservations ::
               db.reservations[id].caller != req.caller || db.reservations[id].idem != req.idem
    requires req.caller in db.callers && db.callers[req.caller]
    requires req.key in db.keys && db.keys[req.key].caller == req.caller
    requires StartsAt(env, db.keys[req.key], now, s) && s.day > 0 && s.week > 0 && s.month > 0
    requires Failure(KeyChecks(env, db, req, now)).None? && Failure(TokenChecks(env, db, req, s)).None?
    requires var max := db.keys[req.key].policy.maxConcurrent; max <= 0 || |Executing(db, req.key)| < max
    ensures var p, r := db.keys[req.key].policy, Reserve(env, db, req, now).1;
            var day := p.daily == 0 || Spent(db, req.key, s.day) + req.amount <= p.daily;
            var week := p.weekly == 0 || Spent(db, req.key, s.week) + req.amount <= p.weekly;
            var month := p.monthly == 0 || Spent(db, req.key, s.month) + req.amount <= p.monthly;
            && (r == Err(SpendExceeded(Daily)) <==> !day)
            && (r == Err(SpendExceeded(Weekly)) <==> day && !week)
            && (r == Err(SpendExceeded(Monthly)) <==> day && week && !month)
  {
    var checks := RoomChecks(db, req, s);
    ReserveAnswers(env, db, req, now, s);
    OneAfterTheOther(TokenChecks(env, db, req, s), checks);
    OneAfterTheOther(KeyChecks(env, db, req, now), TokenChecks(env, db, req, s) + checks);
    SixChecks(checks[0], checks[1], checks[2], checks[3], checks[4], checks[5]);
  }

  // Everybody else is refused before the key is read; a malformed request before anything is read.
  lemma StrangersAreRefused(env: Env, db: Db, req: Request, now: int)
    requires forall id | id in db.reservations ::
               db.reservations[id].caller != req.caller || db.reservations[id].idem != req.idem
    ensures req.caller == "" || req.key == "" || req.idem == "" || req.estimate <= 0 || req.amount < 0 ==>
              Reserve(env, db, req, now) == (db, Err(InvalidArgument))
    ensures req.caller != "" && req.key != "" && req.idem != "" && req.estimate > 0 && req.amount >= 0 ==>
              && (req.caller !in db.callers ==> Reserve(env, db, req, now) == (db, Err(CallerNotFound)))
              && (req.caller in db.callers && !db.callers[req.caller] ==>
                    Reserve(env, db, req, now) == (db, Err(CallerDisabled)))
              && (req.caller in db.callers && db.callers[req.caller]
                  && (req.key !in db.keys || db.keys[req.key].caller != req.caller) ==>
                    Reserve(env, db, req, now) == (db, Err(KeyNotFound)))
  {
    assert !HasIdem(db, req.caller, req.idem);
  }
}
