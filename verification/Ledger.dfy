// The quota ledger (internal/store): three tables and the atomic steps over them. Every function
// here is the mathematical meaning of one store method; there are no clamps on the held counter.
// The class in Store.dfy carries the SQL, clamps and loops, and is proved to compute these steps.
module Ledger {
  import opened Base
  import opened Calendar
  import opened Sums

  type Id = string

  // A generated identifier, which is never empty.
  type NewId = id: Id | id != "" witness "id"

  datatype Error =
    | InvalidArgument | StorageConflict | IdempotencyConflict
    | CallerNotFound | CallerDisabled | KeyNotFound | KeyRevoked | KeyDisabled | KeyExpired
    | ModelNotAllowed | TotalTokensExceeded | PeriodTokensExceeded(tokenPeriod: Period)
    | ConcurrentLimit | SpendExceeded(period: Period) | InsufficientQuota
    | ReservationNotFound | ReservationFinalized

  // What the model takes from outside: the UTC month start and filepath.Match.
  datatype Env = Env(monthStart: int -> int, glob: (string, string) -> bool)

  // Token caps per period; 0 means no cap.
  datatype TokenLimit = TokenLimit(pattern: string, total: nat, daily: nat, weekly: nat, monthly: nat)

  datatype Policy = Policy(
    enabled: bool, expires: Option<int>, quota: Option<int>, daily: int, weekly: int, monthly: int,
    maxConcurrent: int, allowed: seq<string>, limits: seq<TokenLimit>, unmatchedDisabled: bool)
  {
    predicate Valid() {
      && (quota.Some? ==> quota.value >= 0)
      && daily >= 0 && weekly >= 0 && monthly >= 0 && maxConcurrent >= 0
    }

    // The total quota; absent and 0 both mean unlimited.
    function Total(): int {
      if quota.None? then 0 else quota.value
    }

    function SpendLimit(p: Period): int {
      match p
      case Daily => daily
      case Weekly => weekly
      case Monthly => monthly
    }
  }

  datatype Key = Key(
    caller: Id, revoked: bool, policy: Policy, settled: int, held: int,
    totalReset: Option<int>, dailyReset: Option<int>, weeklyReset: Option<int>, monthlyReset: Option<int>)
  {
    function ResetAt(p: Period): int {
      var r := match p
        case Daily => dailyReset
        case Weekly => weeklyReset
        case Monthly => monthlyReset;
      if r.None? then 0 else r.value
    }
  }

  datatype Status = Held | Settled | Released

  datatype Reservation = Reservation(
    caller: Id, key: Id, idem: string, model: string, estimate: int, held: int,
    settledCost: Option<int>, status: Status, created: int, updated: int, finished: Option<int>)

  datatype Row = Row(
    reservation: Id, caller: Id, key: Id, model: string, tokens: int, cost: int, created: int, fallback: bool)

  datatype Db = Db(
    callers: map<Id, bool>, keys: map<Id, Key>,
    reservations: map<Id, Reservation>, ledger: map<Id, Row>)

  // ---------- Sums over the tables ----------

  function HeldBy(k: Id): (Id, Reservation) -> int {
    (id: Id, r: Reservation) => if r.key == k && r.status.Held? then r.held else 0
  }

  function HeldSince(k: Id, start: int): (Id, Reservation) -> int {
    (id: Id, r: Reservation) => if r.key == k && r.status.Held? && r.created >= start then r.held else 0
  }

  function ActiveBy(k: Id): (Id, Reservation) -> int {
    (id: Id, r: Reservation) => if r.key == k && r.status.Held? && r.finished.None? then 1 else 0
  }

  function CostSince(k: Id, start: Option<int>): (Id, Row) -> int {
    (id: Id, row: Row) => if row.key == k && (start.Some? ==> row.created >= start.value) then row.cost else 0
  }

  // Spend of key k since start: settled rows plus current holds (keyPeriodSpend).
  ghost function SpendSince(db: Db, k: Id, start: int): int {
    SumMap(db.ledger, CostSince(k, Some(start))) + SumMap(db.reservations, HeldSince(k, start))
  }

  ghost function Active(db: Db, k: Id): int {
    SumMap(db.reservations, ActiveBy(k))
  }

  function EffectiveStart(env: Env, key: Key, p: Period, now: int): int {
    PeriodStart(CalendarStart(p, env.monthStart, now), key.ResetAt(p))
  }

  // ---------- Model policies ----------

  predicate Matches(env: Env, pattern: string, model: string) {
    pattern != "" && model != "" && (pattern == model || env.glob(pattern, model))
  }

  predicate ModelAllowed(env: Env, allowed: seq<string>, model: string) {
    model != "" && (allowed == [] || exists p | p in allowed :: Matches(env, p, model))
  }

  // The winning policy: the first exact name, else the first among the longest matching patterns.
  ghost predicate ExactWinner(limits: seq<TokenLimit>, model: string, i: nat) {
    && i < |limits| && limits[i].pattern == model
    && forall j | 0 <= j < i :: limits[j].pattern != model
  }

  ghost predicate LongestWinner(env: Env, limits: seq<TokenLimit>, model: string, i: nat) {
    && i < |limits| && Matches(env, limits[i].pattern, model)
    && (forall j | 0 <= j < |limits| && Matches(env, limits[j].pattern, model) ::
      |limits[j].pattern| <= |limits[i].pattern|)
    && (forall j | 0 <= j < i && Matches(env, limits[j].pattern, model) :: |limits[j].pattern| < |limits[i].pattern|)
  }

  ghost predicate IsWinner(env: Env, limits: seq<TokenLimit>, model: string, i: nat) {
    if exists l | l in limits :: l.pattern == model then ExactWinner(limits, model, i)
    else LongestWinner(env, limits, model, i)
  }

  ghost predicate SomeMatch(env: Env, limits: seq<TokenLimit>, model: string) {
    exists l | l in limits :: Matches(env, l.pattern, model)
  }

  // ---------- Token totals ----------

  datatype TokenStarts = TokenStarts(total: int, daily: int, weekly: int, monthly: int)

  function StartsOf(env: Env, key: Key, now: int): TokenStarts {
    TokenStarts(if key.totalReset.None? then 0 else key.totalReset.value,
                EffectiveStart(env, key, Daily, now), EffectiveStart(env, key, Weekly, now),
                EffectiveStart(env, key, Monthly, now))
  }

  // The lower bound of the single pre-filtered query; 0 means "not set yet" in the scan.
  function Earlier(from: int, start: int): int {
    if from == 0 || start < from then start else from
  }

  function QueryFrom(s: TokenStarts): int {
    Earlier(Earlier(Earlier(s.total, s.daily), s.weekly), s.monthly)
  }

  function RowTokens(env: Env, k: Id, pattern: string, start: int): (Id, Row) -> int {
    (id: Id, row: Row) =>
      if row.key == k && row.created >= start && Matches(env, pattern, row.model) then row.tokens else 0
  }

  function HeldTokens(env: Env, k: Id, pattern: string, start: int): (Id, Reservation) -> int {
    (id: Id, r: Reservation) =>
      if r.key == k && r.status.Held? && r.created >= start && Matches(env, pattern, r.model) then r.estimate else 0
  }

  // Tokens of the models sharing a pattern since start: settled rows plus in-flight estimates.
  ghost function TokensSince(env: Env, db: Db, k: Id, pattern: string, start: int): int {
    SumMap(db.ledger, RowTokens(env, k, pattern, start)) + SumMap(db.reservations, HeldTokens(env, k, pattern, start))
  }

  // What the pre-filtered query sees of a period.
  ghost function QueriedTokens(env: Env, db: Db, k: Id, pattern: string, start: int, from: int): int {
    TokensSince(env, db, k, pattern, Max(start, from))
  }

  // The policy that decides for a model.
  ghost function Winner(env: Env, limits: seq<TokenLimit>, model: string): TokenLimit
    requires SomeMatch(env, limits, model)
  {
    WinnerExists(env, limits, model);
    var w: nat :| IsWinner(env, limits, model, w);
    limits[w]
  }

  ghost predicate CapExceeded(env: Env, db: Db, k: Id, pattern: string, cap: nat, start: int, from: int,
                              estimate: int)
  {
    cap > 0 && QueriedTokens(env, db, k, pattern, start, from) > cap - estimate
  }

  ghost function LimitRefusal(env: Env, db: Db, k: Id, limit: TokenLimit, s: TokenStarts,
                              estimate: int): Option<Error>
  {
    var from := QueryFrom(s);
    if CapExceeded(env, db, k, limit.pattern, limit.total, s.total, from, estimate) then Some(TotalTokensExceeded)
    else if CapExceeded(env, db, k, limit.pattern, limit.daily, s.daily, from, estimate)
    then Some(PeriodTokensExceeded(Daily))
    else if CapExceeded(env, db, k, limit.pattern, limit.weekly, s.weekly, from, estimate)
    then Some(PeriodTokensExceeded(Weekly))
    else if CapExceeded(env, db, k, limit.pattern, limit.monthly, s.monthly, from, estimate)
    then Some(PeriodTokensExceeded(Monthly))
    else None
  }

  ghost function TokenRefusal(env: Env, db: Db, k: Id, model: string, estimate: int, now: int): Option<Error>
    requires k in db.keys
  {
    var policy := db.keys[k].policy;
    if model == "" || !SomeMatch(env, policy.limits, model) then
      if policy.unmatchedDisabled then Some(ModelNotAllowed) else None
    else
      LimitRefusal(env, db, k, Winner(env, policy.limits, model), StartsOf(env, db.keys[k], now), estimate)
  }

  lemma {:induction false} LongestExists(env: Env, limits: seq<TokenLimit>, model: string)
    requires SomeMatch(env, limits, model)
    ensures exists i: nat :: LongestWinner(env, limits, model, i)
  {
    var n := |limits| - 1;
    var init := limits[..n];
    if SomeMatch(env, init, model) {
      LongestExists(env, init, model);
      var i: nat :| LongestWinner(env, init, model, i);
      if Matches(env, limits[n].pattern, model) && |limits[n].pattern| > |limits[i].pattern| {
        assert LongestWinner(env, limits, model, n);
      } else {
        assert LongestWinner(env, limits, model, i);
      }
    } else {
      forall j | 0 <= j < n ensures !Matches(env, limits[j].pattern, model) {
        assert init[j] in init;
      }
      assert LongestWinner(env, limits, model, n);
    }
  }

  lemma {:induction false} ExactExists(limits: seq<TokenLimit>, model: string)
    requires exists l | l in limits :: l.pattern == model
    ensures exists i: nat :: ExactWinner(limits, model, i)
  {
    var n := |limits| - 1;
    var init := limits[..n];
    if l :| l in init && l.pattern == model {
      ExactExists(init, model);
      var i: nat :| ExactWinner(init, model, i);
      assert ExactWinner(limits, model, i);
    } else {
      forall j | 0 <= j < n ensures limits[j].pattern != model {
        assert init[j] in init;
      }
      assert ExactWinner(limits, model, n);
    }
  }

  lemma WinnerExists(env: Env, limits: seq<TokenLimit>, model: string)
    requires SomeMatch(env, limits, model)
    ensures exists i: nat :: IsWinner(env, limits, model, i)
  {
    if exists l | l in limits :: l.pattern == model {
      ExactExists(limits, model);
      var i: nat :| ExactWinner(limits, model, i);
      assert IsWinner(env, limits, model, i);
    } else {
      LongestExists(env, limits, model);
      var i: nat :| LongestWinner(env, limits, model, i);
      assert IsWinner(env, limits, model, i);
    }
  }

  lemma WinnerUnique(env: Env, limits: seq<TokenLimit>, model: string, i: nat, j: nat)
    requires IsWinner(env, limits, model, i) && IsWinner(env, limits, model, j)
    ensures i == j
  {
  }

  // ---------- Reserve ----------

  datatype Request = Request(id: NewId, caller: Id, key: Id, idem: string, model: string, estimate: int, amount: int)
  {
    predicate Complete() {
      caller != "" && key != "" && idem != "" && estimate > 0 && amount >= 0
    }
  }

  ghost predicate HasIdem(db: Db, caller: Id, idem: string) {
    exists id | id in db.reservations :: db.reservations[id].caller == caller && db.reservations[id].idem == idem
  }

  ghost predicate SpendRefused(env: Env, db: Db, k: Id, amount: int, p: Period, now: int)
    requires k in db.keys
  {
    var key := db.keys[k];
    key.policy.SpendLimit(p) != 0
    && SpendSince(db, k, EffectiveStart(env, key, p, now)) > key.policy.SpendLimit(p) - amount
  }

  // What is left of a limited total quota.
  function Remaining(key: Key): int {
    key.policy.Total() - key.settled - key.held
  }

  // The checks on the key that precede the total quota, in the order the code makes them.
  ghost function EarlyRefusal(env: Env, db: Db, req: Request, now: int): Option<Error>
    requires req.key in db.keys
  {
    var key := db.keys[req.key];
    var tokens := TokenRefusal(env, db, req.key, req.model, req.estimate, now);
    if key.revoked then Some(KeyRevoked)
    else if !key.policy.enabled then Some(KeyDisabled)
    else if key.policy.expires.Some? && key.policy.expires.value <= now then Some(KeyExpired)
    else if !ModelAllowed(env, key.policy.allowed, req.model) then Some(ModelNotAllowed)
    else if tokens.Some? then tokens
    else if key.policy.maxConcurrent > 0 && Active(db, req.key) >= key.policy.maxConcurrent then Some(ConcurrentLimit)
    else if SpendRefused(env, db, req.key, req.amount, Daily, now) then Some(SpendExceeded(Daily))
    else if SpendRefused(env, db, req.key, req.amount, Weekly, now) then Some(SpendExceeded(Weekly))
    else if SpendRefused(env, db, req.key, req.amount, Monthly, now) then Some(SpendExceeded(Monthly))
    else None
  }

  ghost function KeyRefusal(env: Env, db: Db, req: Request, now: int): Option<Error>
    requires req.key in db.keys
  {
    var early := EarlyRefusal(env, db, req, now);
    if early.Some? then early
    else if db.keys[req.key].policy.Total() != 0 && Remaining(db.keys[req.key]) < req.amount
    then Some(InsufficientQuota)
    else if req.id in db.reservations then Some(StorageConflict)
    else None
  }

  ghost function Refusal(env: Env, db: Db, req: Request, now: int): Option<Error> {
    if req.caller !in db.callers then Some(CallerNotFound)
    else if !db.callers[req.caller] then Some(CallerDisabled)
    else if req.key !in db.keys || db.keys[req.key].caller != req.caller then Some(KeyNotFound)
    else KeyRefusal(env, db, req, now)
  }

  function NewHold(req: Request, now: int): Reservation {
    Reservation(req.caller, req.key, req.idem, req.model, req.estimate, req.amount, None, Held, now, now, None)
  }

  function WithHold(db: Db, req: Request, now: int): Db
    requires req.key in db.keys
  {
    var key := db.keys[req.key];
    db.(keys := db.keys[req.key := key.(held := key.held + req.amount)],
        reservations := db.reservations[req.id := NewHold(req, now)])
  }

  ghost function Reserve(env: Env, db: Db, req: Request, now: int): (Db, Result<Reservation, Error>) {
    if !req.Complete() then (db, Err(InvalidArgument))
    else if HasIdem(db, req.caller, req.idem) then
      var id :| id in db.reservations && db.reservations[id].caller == req.caller
        && db.reservations[id].idem == req.idem;
      var r := db.reservations[id];
      if r.estimate != req.estimate || r.held != req.amount || r.key != req.key then (db, Err(IdempotencyConflict))
      else (db, Ok(r))
    else if Refusal(env, db, req, now).Some? then (db, Err(Refusal(env, db, req, now).value))
    else (WithHold(db, req, now), Ok(NewHold(req, now)))
  }

  // ---------- Settle, release, execution marks ----------

  function SettleReservation(r: Reservation, model: string, cost: int, now: int): Reservation {
    r.(status := Settled, settledCost := Some(cost), model := model, updated := now)
  }

  ghost predicate HasRow(ledger: map<Id, Row>, id: Id) {
    exists l | l in ledger :: ledger[l].reservation == id
  }

  function WithSettlement(db: Db, row: Id, id: Id, model: string, tokens: int, cost: int, fallback: bool, now: int): Db
    requires id in db.reservations && db.reservations[id].key in db.keys
  {
    var r := db.reservations[id];
    var key := db.keys[r.key];
    db.(keys := db.keys[r.key := key.(held := key.held - r.held, settled := key.settled + cost)],
        reservations := db.reservations[id := SettleReservation(r, model, cost, now)],
        ledger := db.ledger[row := Row(id, r.caller, r.key, model, tokens, cost, now, fallback)])
  }

  ghost function Settle(db: Db, row: Id, id: Id, model: string, tokens: int, cost: int, fallback: bool,
                        now: int): (Db, Result<Reservation, Error>)
  {
    if id == "" || model == "" || cost < 0 || tokens < 0 then (db, Err(InvalidArgument))
    else if id !in db.reservations then (db, Err(ReservationNotFound))
    else
      var r := db.reservations[id];
      if r.status.Settled? then (db, Ok(r))
      else if !r.status.Held? then (db, Err(ReservationFinalized))
      else if r.key !in db.keys then (db, Err(KeyNotFound))
      else if row in db.ledger || HasRow(db.ledger, id) then (db, Err(StorageConflict))
      else (WithSettlement(db, row, id, model, tokens, cost, fallback, now), Ok(SettleReservation(r, model, cost, now)))
  }

  function ReleaseReservation(r: Reservation, now: int): Reservation {
    r.(status := Released, updated := now)
  }

  function ReleaseRows(reservations: map<Id, Reservation>, ids: set<Id>, now: int): map<Id, Reservation> {
    map id | id in reservations :: if id in ids then ReleaseReservation(reservations[id], now) else reservations[id]
  }

  ghost function CountHolds(keys: map<Id, Key>, reservations: map<Id, Reservation>): map<Id, Key> {
    map k | k in keys :: keys[k].(held := SumMap(reservations, HeldBy(k)))
  }

  // The meaning of every release: the chosen holds are released and each key's counter is the sum
  // of what it still holds.
  ghost function ReleaseSet(db: Db, ids: set<Id>, now: int): Db {
    var after := ReleaseRows(db.reservations, ids, now);
    db.(reservations := after, keys := CountHolds(db.keys, after))
  }

  ghost function Release(db: Db, id: Id, now: int): (Db, Result<Reservation, Error>) {
    if id == "" then (db, Err(InvalidArgument))
    else if id !in db.reservations then (db, Err(ReservationNotFound))
    else
      var r := db.reservations[id];
      if r.status.Released? then (db, Ok(r))
      else if !r.status.Held? then (db, Err(ReservationFinalized))
      else (ReleaseSet(db, {id}, now), Ok(ReleaseReservation(r, now)))
  }

  // Every id is a distinct held reservation.
  ghost predicate Releasable(db: Db, ids: seq<Id>) {
    && (forall i | 0 <= i < |ids| :: ids[i] != "" && ids[i] in db.reservations && db.reservations[ids[i]].status.Held?)
    && (forall i, j | 0 <= i < j < |ids| :: ids[i] != ids[j])
  }

  function IdSet(ids: seq<Id>): set<Id> {
    set id | id in ids
  }

  // What the batch reports: the failure of the first id that cannot be released after its
  // predecessors were.
  function BatchFailure(db: Db, ids: seq<Id>): Option<Error> {
    if ids == [] then None
    else
      var before, id := ids[..|ids| - 1], ids[|ids| - 1];
      var earlier := BatchFailure(db, before);
      if earlier.Some? then earlier
      else if id == "" then Some(InvalidArgument)
      else if id !in db.reservations then Some(ReservationNotFound)
      else if id in before || !db.reservations[id].status.Held? then Some(ReservationFinalized)
      else None
  }

  // All-or-nothing: the batch is released when no id fails, and otherwise nothing changes.
  ghost function ReleaseBatch(db: Db, ids: seq<Id>, now: int): Db {
    if BatchFailure(db, ids).None? then ReleaseSet(db, IdSet(ids), now) else db
  }

  // The batch goes through exactly when its ids are distinct held reservations.
  lemma {:induction false} BatchSucceeds(db: Db, ids: seq<Id>)
    ensures BatchFailure(db, ids).None? <==> Releasable(db, ids)
  {
    if ids != [] {
      var n := |ids| - 1;
      BatchSucceeds(db, ids[..n]);
      assert forall i | 0 <= i < n :: ids[..n][i] == ids[i];
      assert ids[n] in ids[..n] <==> exists i | 0 <= i < n :: ids[i] == ids[n];
    }
  }

  function StaleIds(db: Db, olderThan: int): set<Id> {
    set id | id in db.reservations && db.reservations[id].status.Held? && db.reservations[id].updated < olderThan
  }

  ghost function ReleaseStale(db: Db, olderThan: int, now: int): Db {
    ReleaseSet(db, StaleIds(db, olderThan), now)
  }

  function FinishExecution(db: Db, id: Id, now: int): Db {
    if id != "" && id in db.reservations && db.reservations[id].status.Held? && db.reservations[id].finished.None?
    then db.(reservations := db.reservations[id := db.reservations[id].(finished := Some(now))])
    else db
  }

  function Touch(db: Db, id: Id, now: int): Db {
    if id != "" && id in db.reservations && db.reservations[id].status.Held?
    then db.(reservations := db.reservations[id := db.reservations[id].(updated := now)])
    else db
  }

  // ---------- Reprice ----------

  predicate CountsSince(reset: Option<int>, created: int) {
    reset.Some? ==> created >= reset.value
  }

  function RepriceKey(key: Key, created: int, delta: int): Key {
    if delta != 0 && CountsSince(key.totalReset, created) then key.(settled := Max(0, key.settled + delta)) else key
  }

  function RepriceReservation(r: Reservation, cost: int, delta: int, now: int): Reservation {
    if delta != 0 && r.status.Settled? then r.(settledCost := Some(cost), updated := now) else r
  }

  function WithReprice(db: Db, row: Id, tokens: int, cost: int, now: int): Db
    requires row in db.ledger && db.ledger[row].key in db.keys && db.ledger[row].reservation in db.reservations
  {
    var before := db.ledger[row];
    var delta := cost - before.cost;
    db.(ledger := db.ledger[row := before.(tokens := tokens, cost := cost, fallback := false)],
        keys := db.keys[before.key := RepriceKey(db.keys[before.key], before.created, delta)],
        reservations := db.reservations[before.reservation :=
                          RepriceReservation(db.reservations[before.reservation], cost, delta, now)])
  }

  ghost function Reprice(db: Db, row: Id, tokens: int, cost: int, now: int): (Db, Result<(), Error>) {
    if row == "" || cost < 0 || tokens < 0 then (db, Err(InvalidArgument))
    else if row !in db.ledger || db.ledger[row].key !in db.keys || db.ledger[row].reservation !in db.reservations
    then (db, Err(InvalidArgument))
    else (WithReprice(db, row, tokens, cost, now), Ok(()))
  }

  // ---------- Spend reset ----------

  datatype Scopes = Scopes(total: bool, daily: bool, weekly: bool, monthly: bool) {
    predicate Any() {
      total || daily || weekly || monthly
    }
  }

  function ResetKey(key: Key, scopes: Scopes, now: int): Key {
    key.(settled := if scopes.total then 0 else key.settled,
         totalReset := if scopes.total then Some(now) else key.totalReset,
         dailyReset := if scopes.daily then Some(now) else key.dailyReset,
         weeklyReset := if scopes.weekly then Some(now) else key.weeklyReset,
         monthlyReset := if scopes.monthly then Some(now) else key.monthlyReset)
  }

  function WithReset(db: Db, targets: set<Id>, scopes: Scopes, now: int): Db {
    db.(keys := map k | k in db.keys :: if k in targets then ResetKey(db.keys[k], scopes, now) else db.keys[k])
  }

  function ResetTargets(db: Db, ids: seq<Id>, all: bool): set<Id> {
    if all then set k | k in db.keys && !db.keys[k].revoked else set k | k in ids && k != ""
  }

  function ResetSpend(db: Db, ids: seq<Id>, all: bool, scopes: Scopes, now: int): (Db, Result<nat, Error>) {
    var targets := ResetTargets(db, ids, all);
    if !scopes.Any() || (!all && targets == {}) then (db, Err(InvalidArgument))
    else if !(targets <= db.keys.Keys) then (db, Err(KeyNotFound))
    else (WithReset(db, targets, scopes, now), Ok(|targets|))
  }

  // ---------- Rejected attempts ----------

  const REJECT_PREFIX := "reject:"

  function WithRejection(db: Db, id: Id, row: Id, caller: Id, k: Id, model: string, now: int): Db {
    db.(reservations := db.reservations[id :=
          Reservation(caller, k, REJECT_PREFIX + id, model, 1, 0, Some(0), Settled, now, now, Some(now))],
        ledger := db.ledger[row := Row(id, caller, k, model, 0, 0, now, false)])
  }

  ghost function Reject(db: Db, id: NewId, row: Id, caller: Id, k: Id, model: string,
                        now: int): (Db, Result<(), Error>)
  {
    if caller == "" || k == "" || model == "" then (db, Err(InvalidArgument))
    else if k !in db.keys then (db, Err(KeyNotFound))
    else if db.keys[k].caller != caller then (db, Err(InvalidArgument))
    else if id in db.reservations || row in db.ledger || HasIdem(db, caller, REJECT_PREFIX + id)
      || HasRow(db.ledger, id)
    then (db, Err(StorageConflict))
    else (WithRejection(db, id, row, caller, k, model, now), Ok(()))
  }

  // ---------- Key administration ----------

  function PutCaller(db: Db, id: Id, enabled: bool): Db {
    db.(callers := db.callers[id := enabled])
  }

  function CreateKey(db: Db, k: Id, caller: Id, policy: Policy): Db {
    if k in db.keys || caller !in db.callers || !policy.Valid() then db
    else db.(keys := db.keys[k := Key(caller, false, policy, 0, 0, None, None, None, None)])
  }

  function SetPolicy(db: Db, k: Id, policy: Policy): Db {
    if k !in db.keys || !policy.Valid() then db else db.(keys := db.keys[k := db.keys[k].(policy := policy)])
  }

  function RevokeKey(db: Db, k: Id): Db {
    if k !in db.keys then db
    else
      var key := db.keys[k];
      db.(keys := db.keys[k := key.(revoked := true, policy := key.policy.(enabled := false))])
  }
}
