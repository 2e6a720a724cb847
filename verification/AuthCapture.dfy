// Auth captures, warmup holds and scheduler picks (internal/service/auth_concurrency.go,
// auth_capture.go, auth_warmup.go): the in-memory state under one mutex and the meaning of each
// locked section. Names are trimmed and case-folded; auth ids are numbered as in RoundRobin.
module AuthCapture {
  import opened Base
  import opened Sums
  import opened StableSort
  import opened RoundRobin

  type Id = string

  // `named` tells whether any field besides provider and id identifies the auth.
  datatype Auth = Auth(provider: string, id: AuthId, named: bool) {
    predicate Empty() {
      id == 0 && !named
    }
  }

  // Token usage of one request; 0 means no tokens.
  type Usage = nat

  datatype Capture = Capture(
    models: seq<string>, startedAt: int, active: bool, ledgerId: Id, auth: Option<Auth>, usage: Option<Usage>)

  type Pending = map<Id, Capture>
  type Holds = map<Id, Auth>

  datatype AffinityKey = AffinityKey(provider: string, session: string, model: string)
  datatype Binding = Binding(id: AuthId, provider: string, expires: int)
  type Affinity = map<AffinityKey, Binding>

  datatype State = State(pending: Pending, holds: Holds, affinity: Affinity, lasts: Lasts)

  const EMPTY: State := State(map[], map[], map[], map[])

  const PENDING_TTL: int := 900_000
  const LOOSE_WINDOW: int := 45_000
  const MAX_AFFINITY: nat := 65536

  // Concurrency limits by (provider, id); 0 and absence both mean unlimited.
  type Limits = map<(string, AuthId), nat>

  function LimitOf(limits: Limits, provider: string, id: AuthId): nat {
    if provider == "" || id == 0 || (provider, id) !in limits then 0 else limits[(provider, id)]
  }

  // ---------- In-flight counts ----------

  predicate SameAuth(auth: Auth, provider: string, id: AuthId) {
    auth.id == id && (provider == "" || auth.provider == provider)
  }

  predicate Occupies(c: Capture, provider: string, id: AuthId) {
    c.active && c.auth.Some? && SameAuth(c.auth.value, provider, id)
  }

  function CaptureUse(provider: string, id: AuthId, except: Id): (Id, Capture) -> int {
    (x: Id, c: Capture) => if x != except && Occupies(c, provider, id) then 1 else 0
  }

  function HoldUse(provider: string, id: AuthId): (Id, Auth) -> int {
    (x: Id, auth: Auth) => if SameAuth(auth, provider, id) then 1 else 0
  }

  // activeAuthRequestsLocked
  ghost function InUse(s: State, provider: string, id: AuthId, except: Id): int {
    if id == 0 then 0
    else SumMap(s.pending, CaptureUse(provider, id, except)) + SumMap(s.holds, HoldUse(provider, id))
  }

  predicate WarmupBusy(holds: Holds, provider: string, id: AuthId) {
    id != 0 && exists run | run in holds :: SameAuth(holds[run], provider, id)
  }

  // ---------- Captures ----------

  function Pruned(pending: Pending, now: int): Pending {
    map id | id in pending && now - pending[id].startedAt <= PENDING_TTL :: pending[id]
  }

  function Track(s: State, id: Id, models: seq<string>, now: int): State {
    if id == "" || models == [] then s
    else s.(pending := Pruned(s.pending, now)[id := Capture(models, now, true, "", None, None)])
  }

  function Bind(pending: Pending, id: Id, auth: Auth): Pending
    requires id in pending
  {
    pending[id := pending[id].(auth := Some(auth))]
  }

  function BindCapture(s: State, id: Id, auth: Auth): State {
    if id == "" || auth.Empty() || id !in s.pending then s else s.(pending := Bind(s.pending, id, auth))
  }

  // Whether the auth is admitted, and the state afterwards.
  ghost function Admit(limits: Limits, s: State, id: Id, auth: Auth): (State, bool) {
    if id == "" || auth.Empty() then (s, true)
    else
      var limit := LimitOf(limits, auth.provider, auth.id);
      if auth.provider != "" && auth.id != 0 && limit > 0 && InUse(s, auth.provider, auth.id, id) >= limit
      then (s, false)
      else (BindCapture(s, id, auth), true)
  }

  function Finish(s: State, id: Id): State {
    if id == "" || id !in s.pending then s else s.(pending := s.pending[id := s.pending[id].(active := false)])
  }

  function Cancel(s: State, id: Id): State {
    if id == "" then s else s.(pending := s.pending - {id})
  }

  // What AuthForSettlement leaves of a capture: nothing once both auth and usage are known,
  // otherwise the ledger id is published for late callbacks.
  function AfterSettlement(c: Capture, ledgerId: Id): Option<Capture> {
    if c.auth.Some? && c.usage.Some? then None
    else if ledgerId != "" then Some(c.(ledgerId := ledgerId))
    else Some(c)
  }

  // What settleMissingUsage leaves of a capture once the row is written.
  function AfterMissing(c: Capture, ledgerId: Id): Option<Capture> {
    if c.usage.Some? && c.auth.Some? then None else Some(c.(ledgerId := ledgerId))
  }

  function CapturedUsage(pending: Pending, id: Id): Option<Usage> {
    if id in pending then pending[id].usage else None
  }

  function Store(pending: Pending, id: Id, c: Option<Capture>): Pending {
    if c.Some? then pending[id := c.value] else pending - {id}
  }

  function AuthForSettlement(s: State, id: Id, ledgerId: Id, now: int): (State, Option<Auth>) {
    if id == "" then (s, None)
    else
      var pending := Pruned(s.pending, now);
      if id !in pending then (s.(pending := pending), None)
      else (s.(pending := Store(pending, id, AfterSettlement(pending[id], ledgerId))), pending[id].auth)
  }

  // ---------- Warmup holds ----------

  ghost function AcquireWarmup(s: State, run: Id, auth: Auth): (State, bool) {
    if run == "" || auth.Empty() || auth.provider == "" || auth.id == 0 then (s, false)
    else if WarmupBusy(s.holds, auth.provider, auth.id) || InUse(s, auth.provider, auth.id, "") > 0 then (s, false)
    else (s.(holds := s.holds[run := auth]), true)
  }

  function ReleaseWarmup(s: State, run: Id): State {
    s.(holds := s.holds - {run})
  }

  // ---------- Picks ----------

  datatype Strategy = FillFirst | LeastBusy | RoundRobinNext

  // `primary` and `fallback` are the two halves of the session key.
  datatype PickRequest = PickRequest(
    model: string, primary: string, fallback: string, reservation: Id,
    strategy: Strategy, sticky: bool, ttl: int)

  datatype PickResult = Unhandled | Full | Picked(provider: string, id: AuthId)

  ghost predicate Usable(s: State, limits: Limits, c: Candidate) {
    && c.id != 0 && !c.disabled && !WarmupBusy(s.holds, c.provider, c.id)
    && !(LimitOf(limits, c.provider, c.id) > 0 && InUse(s, c.provider, c.id, "") >= LimitOf(limits, c.provider, c.id))
  }

  ghost function Available(s: State, limits: Limits, candidates: seq<Candidate>): seq<Candidate> {
    if candidates == [] then []
    else
      var n := |candidates| - 1;
      Available(s, limits, candidates[..n]) + (if Usable(s, limits, candidates[n]) then [candidates[n]] else [])
  }

  function ById(): Candidate -> int {
    (c: Candidate) => c.id
  }

  function SessionKeys(req: PickRequest, provider: string): (Option<AffinityKey>, Option<AffinityKey>) {
    if !req.sticky then (None, None)
    else
      var primary := if req.primary == "" then req.fallback else req.primary;
      var fallback := if req.primary == "" then "" else req.fallback;
      (if primary == "" then None else Some(AffinityKey(provider, primary, req.model)),
       if fallback == "" || fallback == primary then None else Some(AffinityKey(provider, fallback, req.model)))
  }

  // The available candidate a live session binding points at.
  function Bound(affinity: Affinity, key: Option<AffinityKey>, available: seq<Candidate>, now: int): Option<Candidate> {
    if key.None? || key.value !in affinity || now >= affinity[key.value].expires then None
    else FirstWith(available, affinity[key.value].id)
  }

  function BoundEither(affinity: Affinity, keys: (Option<AffinityKey>, Option<AffinityKey>), available: seq<Candidate>,
                       now: int): Option<Candidate>
  {
    var first := Bound(affinity, keys.0, available, now);
    if first.Some? then first else Bound(affinity, keys.1, available, now)
  }

  // bindAffinityLocked: a full table first drops expired bindings, then everything.
  function BindAffinity(affinity: Affinity, key: Option<AffinityKey>, c: Candidate, expires: int, now: int): Affinity {
    if key.None? then affinity
    else
      var live := if key.value !in affinity && |affinity| >= MAX_AFFINITY
                  then map k | k in affinity && now <= affinity[k].expires :: affinity[k] else affinity;
      var room := if key.value !in affinity && |live| >= MAX_AFFINITY then map[] else live;
      room[key.value := Binding(c.id, c.provider, expires)]
  }

  // The first least busy candidate.
  ghost function LeastBusyOf(s: State, tier: seq<Candidate>): Candidate
    requires tier != []
  {
    var n := |tier| - 1;
    if n == 0 then tier[0]
    else
      var best := LeastBusyOf(s, tier[..n]);
      if InUse(s, tier[n].provider, tier[n].id, "") < InUse(s, best.provider, best.id, "") then tier[n] else best
  }

  function CursorKey(provider: string, model: string): string {
    provider + ":" + model
  }

  ghost function ChosenOf(s: State, req: PickRequest, tier: seq<Candidate>): Candidate
    requires tier != []
  {
    match req.strategy
    case FillFirst => tier[0]
    case LeastBusy => LeastBusyOf(s, tier)
    case RoundRobinNext =>
      var key := CursorKey(tier[0].provider, req.model);
      var c := FirstWith(tier, Next(Ids(tier), LastOf(s.lasts, key)));
      if c.Some? then c.value else tier[0]
  }

  // The scheduler's choice and the tables it leaves, before the request is attributed.
  ghost function Choose(s: State, limits: Limits, req: PickRequest, available: seq<Candidate>,
                        now: int): (Candidate, Affinity, Lasts)
    requires available != []
  {
    var provider := available[0].provider;
    var keys := SessionKeys(req, provider);
    var bound := BoundEither(s.affinity, keys, available, now);
    var tier := Tier(available);
    TierProperties(available);
    var chosen := if bound.Some? then bound.value else ChosenOf(s, req, tier);
    var once := BindAffinity(s.affinity, keys.0, chosen, now + req.ttl, now);
    (chosen,
     BindAffinity(once, keys.1, chosen, now + req.ttl, now),
     if bound.None? && req.strategy.RoundRobinNext?
     then Serve(s.lasts, Call(CursorKey(tier[0].provider, req.model), Ids(tier)))
     else s.lasts)
  }

  ghost predicate Unattributed(pending: Pending, id: Id) {
    id in pending && pending[id].active && pending[id].auth.None?
  }

  ghost predicate Oldest(pending: Pending, id: Id) {
    Unattributed(pending, id) && forall x | Unattributed(pending, x) :: pending[id].startedAt <= pending[x].startedAt
  }

  // bindPickLocked: the named live reservation, or an oldest unattributed one when none is named.
  ghost predicate PickBinds(before: Pending, reservation: Id, auth: Auth, after: Pending) {
    if auth.Empty() then after == before
    else if reservation != "" then
      after == if reservation in before && before[reservation].active then Bind(before, reservation, auth) else before
    else if exists x :: Unattributed(before, x) then exists x :: Oldest(before, x) && after == Bind(before, x, auth)
    else after == before
  }

  ghost predicate PickStep(s: State, limits: Limits, req: PickRequest, candidates: seq<Candidate>, now: int, t: State,
                           r: PickResult)
  {
    var available := Sorted(Available(s, limits, candidates), ById());
    if candidates == [] then t == s && r == Unhandled
    else if available == [] then t == s && r == Full
    else
      var (chosen, affinity, lasts) := Choose(s, limits, req, available, now);
      && r == Picked(chosen.provider, chosen.id)
      && PickBinds(s.pending, req.reservation, Auth(chosen.provider, chosen.id, false), t.pending)
      && t == State(t.pending, s.holds, affinity, lasts)
  }

  // ---------- Host usage records ----------

  datatype Record = Record(requestedAt: Option<int>, auth: Auth, usage: Usage, models: set<string>)

  predicate CanUse(c: Capture, rec: Record) {
    (c.usage.None? && rec.usage > 0) || (c.auth.None? && !rec.auth.Empty())
  }

  // Whether a capture's models and a record's models name the same model.
  type Matcher = (seq<string>, set<string>) -> bool

  function Eligible(pending: Pending, rec: Record, related: Matcher, strict: bool): set<Id> {
    set id | id in pending && CanUse(pending[id], rec) && (strict ==> related(pending[id].models, rec.models))
  }

  function Delta(c: Capture, rec: Record, now: int): nat {
    var at := if rec.requestedAt.Some? then rec.requestedAt.value else now;
    if at < c.startedAt then c.startedAt - at else at - c.startedAt
  }

  // betterPendingMatch
  predicate Better(a: Capture, b: Capture, rec: Record, now: int) {
    if rec.requestedAt.None? || Delta(a, rec, now) == Delta(b, rec, now) then a.startedAt < b.startedAt
    else Delta(a, rec, now) < Delta(b, rec, now)
  }

  // The captures compared by time: a loose match among several must lie within the window.
  function Considered(pending: Pending, rec: Record, related: Matcher, strict: bool, now: int): set<Id> {
    var ids := Eligible(pending, rec, related, strict);
    if strict || |ids| == 1 then ids
    else set id | id in ids && Delta(pending[id], rec, now) <= LOOSE_WINDOW
  }

  ghost predicate BestOf(pending: Pending, rec: Record, now: int, ids: set<Id>, best: Option<Id>) {
    match best
    case None => ids == {}
    case Some(id) =>
      id in ids && id in pending && forall x | x in ids && x in pending :: !Better(pending[x], pending[id], rec, now)
  }

  // A model match decides, and only without one a loose match.
  ghost predicate Matched(pending: Pending, rec: Record, related: Matcher, now: int, best: Option<Id>) {
    if Considered(pending, rec, related, true, now) != {}
    then BestOf(pending, rec, now, Considered(pending, rec, related, true, now), best)
    else BestOf(pending, rec, now, Considered(pending, rec, related, false, now), best)
  }

  function Fill(c: Capture, rec: Record): Capture {
    c.(auth := if !rec.auth.Empty() && c.auth.None? then Some(rec.auth) else c.auth,
       usage := if c.usage.None? && rec.usage > 0 then Some(rec.usage) else c.usage)
  }

  // A capture whose ledger row exists is dropped once auth and usage are known.
  function AfterRecord(c: Capture, rec: Record): Option<Capture> {
    var d := Fill(c, rec);
    if d.ledgerId != "" && d.auth.Some? && d.usage.Some? then None else Some(d)
  }

  // observeHostUsage: the ledger id to update, if any, and whether a capture matched.
  ghost predicate ObserveStep(s: State, rec: Record, related: Matcher, now: int, best: Option<Id>, t: State,
                              ledgerId: Id, ok: bool)
  {
    if rec.models == {} then best == None && t == s && ledgerId == "" && !ok
    else
      var pending := Pruned(s.pending, now);
      && Matched(pending, rec, related, now, best)
      && (if best.None? then t == s.(pending := pending) && ledgerId == "" && !ok
          else
            && best.value in pending
            && t == s.(pending := Store(pending, best.value, AfterRecord(pending[best.value], rec)))
            && ledgerId == pending[best.value].ledgerId && ok)
  }

  // ---------- One transition relation ----------

  datatype Step =
    | DoTrack(id: Id, models: seq<string>)
    | DoAdmit(id: Id, auth: Auth)
    | DoPick(req: PickRequest, candidates: seq<Candidate>)
    | DoFinish(id: Id)
    | DoCancel(id: Id)
    | DoSettle(id: Id, ledgerId: Id)
    | DoPrune
    | DoObserve(rec: Record, best: Option<Id>)
    | DoAcquire(run: Id, auth: Auth)
    | DoRelease(run: Id)

  datatype Setup = Setup(limits: Limits, related: Matcher)

  ghost predicate Moves(setup: Setup, s: State, step: Step, now: int, t: State) {
    match step
    case DoTrack(id, models) => t == Track(s, id, models, now)
    case DoAdmit(id, auth) => t == Admit(setup.limits, s, id, auth).0
    case DoPick(req, candidates) => exists r :: PickStep(s, setup.limits, req, candidates, now, t, r)
    case DoFinish(id) => t == Finish(s, id)
    case DoCancel(id) => t == Cancel(s, id)
    case DoSettle(id, ledgerId) => t == AuthForSettlement(s, id, ledgerId, now).0
    case DoPrune => t == s.(pending := Pruned(s.pending, now))
    case DoObserve(rec, best) => exists ledgerId, ok :: ObserveStep(s, rec, setup.related, now, best, t, ledgerId, ok)
    case DoAcquire(run, auth) => t == AcquireWarmup(s, run, auth).0
    case DoRelease(run) => t == ReleaseWarmup(s, run)
  }

  datatype Event = Event(step: Step, now: int, after: State)

  // A run: each event moves the state before it to its own.
  ghost predicate Runs(setup: Setup, s: State, es: seq<Event>) {
    es != [] ==>
      var n := |es| - 1;
      Runs(setup, s, es[..n]) && Moves(setup, Final(s, es[..n]), es[n].step, es[n].now, es[n].after)
  }

  function Final(s: State, es: seq<Event>): State {
    if es == [] then s else es[|es| - 1].after
  }
}
