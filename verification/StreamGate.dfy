// The stream launch gate (internal/plugin/request_lifecycle.go, execute.go, attempt.go): every
// interleaving of streams, completion callbacks and store steps.
module StreamGate {
  import opened Base
  import opened StreamLifecycle
  import Ledger
  import LedgerInvariant
  import LedgerSteps
  import Settlement

  type Db = Ledger.Db

  // ---------- Streams ----------

  // A stream has the request id its header named, or none.
  datatype Sid = Headed(request: HeaderId) | Headless(n: nat)

  type HeaderId = id: Rid | id != "" witness "id"

  function RequestOf(sid: Sid): Rid {
    if sid.Headed? then sid.request else ""
  }

  // Where runStream stands. Failing settles a zero-cost attempt, Accounting settles from usage, and
  // Releasing releases what the store refused to settle.
  datatype Phase =
    Starting | Reserved | Bound | Admitted | Gated | Streaming | Failing | Accounting | Releasing | Exited

  // `launched`: the upstream call was made; `freed`: how often the client's request slot was freed.
  datatype Stream = Stream(phase: Phase, reservation: Option<Id>, launched: bool, freed: nat)

  datatype World = World(entries: Entries, streams: map<Sid, Stream>, db: Db)

  // What the upstream call returned.
  datatype Reply = Opened | HostError | BadReply | UpstreamStatus | EmptyStreamId

  datatype Step =
    | DoTrack(id: Rid, now: int)
    | DoComplete(id: Rid, canceled: bool, now: int)
    // Any other use of the store: callbacks, other requests, stale releases, administration.
    | DoLedger(op: LedgerSteps.Op, now: int)
    | DoStart(sid: Sid)
    | DoRefuse(sid: Sid)
    | DoReserve(sid: Sid, req: Ledger.Request, now: int)
    | DoBind(sid: Sid)
    | DoAdmit(sid: Sid, ok: bool)
    | DoGate(sid: Sid)
    | DoLaunch(sid: Sid, reply: Reply)
    | DoRead(sid: Sid, last: bool)
    | DoAttempt(sid: Sid, row: Id, model: string, reserved: string, now: int)
    | DoAccount(sid: Sid, row: Id, plan: Settlement.Plan, captured: Option<nat>, parsed: Option<nat>,
                missing: Settlement.Missing, now: int)
    | DoRelease(sid: Sid, now: int)

  predicate InPhase(w: World, sid: Sid, phase: Phase) {
    sid in w.streams && w.streams[sid].phase == phase
  }

  // A phase after the reserve, with the reservation it made.
  predicate Holding(w: World, sid: Sid, phase: Phase) {
    InPhase(w, sid, phase) && w.streams[sid].reservation.Some?
  }

  predicate Enabled(w: World, step: Step) {
    match step
    case DoTrack(_, _) => true
    case DoComplete(_, _, _) => true
    case DoLedger(_, _) => true
    case DoStart(sid) => sid !in w.streams
    case DoRefuse(sid) => InPhase(w, sid, Starting)
    case DoReserve(sid, _, _) => InPhase(w, sid, Starting)
    case DoBind(sid) => Holding(w, sid, Reserved)
    case DoAdmit(sid, _) => InPhase(w, sid, Bound)
    case DoGate(sid) => InPhase(w, sid, Admitted)
    case DoLaunch(sid, _) => InPhase(w, sid, Gated)
    case DoRead(sid, _) => InPhase(w, sid, Streaming)
    case DoAttempt(sid, _, _, _, _) => Holding(w, sid, Failing)
    case DoAccount(sid, _, _, _, _, _, _) => Holding(w, sid, Accounting)
    case DoRelease(sid, _) => Holding(w, sid, Releasing)
  }

  function Move(w: World, sid: Sid, s: Stream): World {
    w.(streams := w.streams[sid := s])
  }

  function Proceed(w: World, sid: Sid, phase: Phase, launched: bool): World
    requires sid in w.streams
  {
    Move(w, sid, w.streams[sid].(phase := phase, launched := launched))
  }

  // Leaving runStream clears the lifecycle entry.
  function Exit(w: World, sid: Sid, db: Db): World
    requires sid in w.streams
  {
    World(Clear(w.entries, RequestOf(sid)), w.streams[sid := w.streams[sid].(phase := Exited)], db)
  }

  // After a settlement: done, or on to the release.
  function Conclude(w: World, sid: Sid, result: (Db, bool)): World
    requires sid in w.streams
  {
    if result.1 then Exit(w, sid, result.0)
    else World(w.entries, w.streams[sid := w.streams[sid].(phase := Releasing)], result.0)
  }

  // The reservation a successful reserve returned: the one with the request's idempotency key.
  ghost function ReservedId(db: Db, req: Ledger.Request): Id {
    if Ledger.HasIdem(db, req.caller, req.idem) then
      var id :| id in db.reservations && db.reservations[id].caller == req.caller
        && db.reservations[id].idem == req.idem;
      id
    else req.id
  }

  ghost function Next(env: Ledger.Env, w: World, step: Step): World
    requires Enabled(w, step)
  {
    match step
    case DoTrack(id, now) => w.(entries := Track(w.entries, id, now))
    case DoComplete(id, canceled, now) => AfterComplete(w, id, canceled, now)
    case DoLedger(op, now) => w.(db := LedgerSteps.Step(env, w.db, op, now))
    case DoStart(sid) => Move(w, sid, Stream(Starting, None, false, 0))
    case DoRefuse(sid) => Exit(w, sid, w.db)
    case DoReserve(sid, req, now) => AfterReserve(env, w, sid, req, now)
    case DoBind(sid) =>
      var (entries, gone) := Bind(w.entries, RequestOf(sid), w.streams[sid].reservation.value);
      World(entries, w.streams[sid := w.streams[sid].(phase := if gone then Failing else Bound)], w.db)
    case DoAdmit(sid, ok) => Proceed(w, sid, if ok then Admitted else Failing, w.streams[sid].launched)
    case DoGate(sid) =>
      Proceed(w, sid, if MayLaunch(w.entries, RequestOf(sid)) then Gated else Failing, w.streams[sid].launched)
    case DoLaunch(sid, reply) => Proceed(w, sid, AfterReply(reply), true)
    case DoRead(sid, last) => Proceed(w, sid, if last then Accounting else Streaming, w.streams[sid].launched)
    case DoAttempt(sid, row, model, reserved, now) =>
      Conclude(w, sid, Settlement.ZeroCostAttempt(w.db, row, w.streams[sid].reservation.value, model, reserved, now))
    case DoAccount(sid, row, plan, captured, parsed, missing, now) =>
      var id := w.streams[sid].reservation.value;
      Conclude(w, sid, Settlement.FromUsage(w.db, row, id, plan, captured, parsed, missing, now))
    case DoRelease(sid, now) => Exit(w, sid, Ledger.Release(w.db, w.streams[sid].reservation.value, now).0)
  }

  function AfterReply(reply: Reply): Phase {
    match reply
    case Opened => Streaming
    case UpstreamStatus => Accounting
    case _ => Failing
  }

  // A refused reserve ends the stream before it has anything to end.
  ghost function AfterReserve(env: Ledger.Env, w: World, sid: Sid, req: Ledger.Request, now: int): World
    requires sid in w.streams
  {
    var (db, r) := Ledger.Reserve(env, w.db, req, now);
    if r.Ok? then
      var s := w.streams[sid].(phase := Reserved, reservation := Some(ReservedId(w.db, req)));
      World(w.entries, w.streams[sid := s], db)
    else Exit(w, sid, db)
  }

  // A cancel that frees the client's slot marks the reservation's execution finished in the store.
  function AfterComplete(w: World, id: Rid, canceled: bool, now: int): World {
    var (entries, frees) := Complete(w.entries, id, canceled);
    if frees.None? then w.(entries := entries)
    else World(entries, CountFreed(w.streams, id), Ledger.FinishExecution(w.db, frees.value, now))
  }

  function CountFreed(streams: map<Sid, Stream>, id: Rid): map<Sid, Stream> {
    if id != "" && Headed(id) in streams
    then streams[Headed(id) := streams[Headed(id)].(freed := streams[Headed(id)].freed + 1)] else streams
  }

  ghost predicate Runs(env: Ledger.Env, w: World, steps: seq<Step>)
    decreases |steps|
  {
    steps != [] ==> Enabled(w, steps[0]) && Runs(env, Next(env, w, steps[0]), steps[1..])
  }

  ghost function Final(env: Ledger.Env, w: World, steps: seq<Step>): World
    requires Runs(env, w, steps)
    decreases |steps|
  {
    if steps == [] then w else Final(env, Next(env, w, steps[0]), steps[1..])
  }

  const START: World := World(map[], map[], LedgerInvariant.EMPTY)

  lemma Replay(env: Ledger.Env, w: World, step: Step, rest: seq<Step>)
    requires Enabled(w, step)
    ensures Runs(env, w, [step] + rest) <==> Runs(env, Next(env, w, step), rest)
    ensures Runs(env, Next(env, w, step), rest) ==> Final(env, w, [step] + rest) == Final(env, Next(env, w, step), rest)
  {
    assert ([step] + rest)[1..] == rest;
  }

  lemma {:induction false} RunsOn(env: Ledger.Env, w: World, first: seq<Step>, then_: seq<Step>)
    requires Runs(env, w, first) && Runs(env, Final(env, w, first), then_)
    ensures Runs(env, w, first + then_) && Final(env, w, first + then_) == Final(env, Final(env, w, first), then_)
    decreases |first|
  {
    if first == [] {
      assert first + then_ == then_;
    } else {
      RunsOn(env, Next(env, w, first[0]), first[1..], then_);
      Replay(env, w, first[0], first[1..] + then_);
      assert first + then_ == [first[0]] + (first[1..] + then_);
    }
  }

  // ---------- The gate ----------

  predicate PreGate(phase: Phase) {
    phase.Starting? || phase.Reserved? || phase.Bound? || phase.Admitted?
  }

  // A cancel is recorded on the live entry of a stream that has not passed the gate.
  ghost predicate CancelPending(w: World, id: HeaderId) {
    && id in w.entries && w.entries[id].canceled
    && (Headed(id) in w.streams ==> PreGate(w.streams[Headed(id)].phase) && !w.streams[Headed(id)].launched)
  }

  predicate Leaving(phase: Phase) {
    phase.Failing? || phase.Releasing? || phase.Exited?
  }

  // The stream ended or is ending without a launch.
  ghost predicate TurnedAway(w: World, id: HeaderId) {
    Headed(id) in w.streams && Leaving(w.streams[Headed(id)].phase) && !w.streams[Headed(id)].launched
  }

  ghost predicate Blocked(w: World, id: HeaderId) {
    CancelPending(w, id) || TurnedAway(w, id)
  }

  // The steps that forget a recorded cancel: tracking the same request again, a completion that is no
  // cancel, and pruning an entry that was never bound and is five minutes old.
  ghost predicate Forgets(w: World, step: Step, id: HeaderId) {
    || (step.DoComplete? && step.id == id && !step.canceled)
    || (step.DoTrack? && step.id == id)
    || (step.DoTrack? && step.id != "" && id in w.entries && Expired(w.entries[id], step.now))
  }

  lemma TurnedAwayStays(env: Ledger.Env, w: World, step: Step, id: HeaderId)
    requires Enabled(w, step) && TurnedAway(w, id)
    ensures TurnedAway(Next(env, w, step), id)
  {
  }

  // A blocked request stays blocked if and only if it was turned away already or the step forgets
  // nothing.
  lemma StepBlocked(env: Ledger.Env, w: World, step: Step, id: HeaderId)
    requires Enabled(w, step) && Blocked(w, id)
    ensures Blocked(Next(env, w, step), id) <==> TurnedAway(w, id) || !Forgets(w, step, id)
  {
    if TurnedAway(w, id) {
      TurnedAwayStays(env, w, step, id);
    }
  }

  ghost predicate Remembered(env: Ledger.Env, w: World, steps: seq<Step>, id: HeaderId)
    requires Runs(env, w, steps)
    decreases |steps|
  {
    steps != [] ==>
      (TurnedAway(w, id) || !Forgets(w, steps[0], id)) && Remembered(env, Next(env, w, steps[0]), steps[1..], id)
  }

  // The block holds in every state of the run.
  ghost predicate AlwaysBlocked(env: Ledger.Env, w: World, steps: seq<Step>, id: HeaderId)
    requires Runs(env, w, steps)
    decreases |steps|
  {
    Blocked(w, id) && (steps != [] ==> AlwaysBlocked(env, Next(env, w, steps[0]), steps[1..], id))
  }

  // Once a cancel is recorded before the gate the request is blocked throughout a run if and only if
  // no step of the run forgets it; a request blocked throughout is never launched.
  lemma {:induction false} CancelBeforeGate(env: Ledger.Env, w: World, steps: seq<Step>, id: HeaderId)
    requires Blocked(w, id) && Runs(env, w, steps)
    ensures AlwaysBlocked(env, w, steps, id) <==> Remembered(env, w, steps, id)
    ensures Remembered(env, w, steps, id) ==>
              !Launched(Final(env, w, steps), Headed(id))
    decreases |steps|
  {
    if steps != [] {
      StepBlocked(env, w, steps[0], id);
      if Blocked(Next(env, w, steps[0]), id) {
        CancelBeforeGate(env, Next(env, w, steps[0]), steps[1..], id);
      }
    }
  }

  // ---------- Forgetting lets the stream launch ----------

  // The way to the upstream call from each phase before it.
  function WayToLaunch(phase: Phase, sid: Sid): seq<Step> {
    match phase
    case Reserved => [DoBind(sid), DoAdmit(sid, true), DoGate(sid), DoLaunch(sid, Opened)]
    case Bound => [DoAdmit(sid, true), DoGate(sid), DoLaunch(sid, Opened)]
    case Admitted => [DoGate(sid), DoLaunch(sid, Opened)]
    case _ => []
  }

  predicate Launched(w: World, sid: Sid) {
    sid in w.streams && w.streams[sid].launched
  }

  predicate Uncanceled(w: World, sid: Sid) {
    MayLaunch(w.entries, RequestOf(sid))
  }

  lemma GateOpens(env: Ledger.Env, w: World, sid: Sid)
    requires InPhase(w, sid, Admitted) && Uncanceled(w, sid)
    ensures Runs(env, w, WayToLaunch(Admitted, sid)) && Launched(Final(env, w, WayToLaunch(Admitted, sid)), sid)
  {
    var gated := Next(env, w, DoGate(sid));
    Replay(env, gated, DoLaunch(sid, Opened), []);
    Replay(env, w, DoGate(sid), [DoLaunch(sid, Opened)]);
  }

  lemma BoundLaunches(env: Ledger.Env, w: World, sid: Sid)
    requires InPhase(w, sid, Bound) && Uncanceled(w, sid)
    ensures Runs(env, w, WayToLaunch(Bound, sid)) && Launched(Final(env, w, WayToLaunch(Bound, sid)), sid)
  {
    GateOpens(env, Next(env, w, DoAdmit(sid, true)), sid);
    Replay(env, w, DoAdmit(sid, true), WayToLaunch(Admitted, sid));
  }

  lemma ReservedLaunches(env: Ledger.Env, w: World, sid: Sid)
    requires Holding(w, sid, Reserved) && Uncanceled(w, sid)
    ensures Runs(env, w, WayToLaunch(Reserved, sid)) && Launched(Final(env, w, WayToLaunch(Reserved, sid)), sid)
  {
    BoundLaunches(env, Next(env, w, DoBind(sid)), sid);
    Replay(env, w, DoBind(sid), WayToLaunch(Bound, sid));
  }
}
