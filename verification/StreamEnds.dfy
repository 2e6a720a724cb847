// What every interleaving of streams, callbacks and store steps keeps (internal/plugin/execute.go,
// attempt.go, request_lifecycle.go): nothing stays held, no slot is freed twice, and exactly when a
// recorded cancel can be forgotten.
module StreamEnds {
  import opened Base
  import opened StreamLifecycle
  import opened StreamGate
  import Ledger
  import opened LedgerInvariant
  import LedgerSlots
  import LedgerSteps
  import LedgerRuns
  import Settlement

  // ---------- What every reachable world satisfies ----------

  ghost predicate NotHeld(reservations: Reservations, id: Id) {
    id in reservations && !reservations[id].status.Held?
  }

  // A stream that passed its reserve has a reservation; one that returned has none that is held.
  ghost predicate LedgerFits(reservations: Reservations, s: Stream) {
    && (s.phase.Starting? ==> s.reservation.None?)
    && (!s.phase.Starting? && !s.phase.Exited? ==> s.reservation.Some?)
    && (s.reservation.Some? ==> s.reservation.value != "" && s.reservation.value in reservations)
    && (s.phase.Exited? && s.reservation.Some? ==> NotHeld(reservations, s.reservation.value))
    && (s.launched ==> !PreGate(s.phase) && !s.phase.Gated? && s.reservation.Some?)
  }

  // The client's slot is freed at most once, and only through the bound entry.
  ghost predicate SlotFits(entries: Entries, sid: Sid, s: Stream) {
    && s.freed <= 1 && (s.phase.Starting? || s.phase.Reserved? ==> s.freed == 0)
    && (sid.Headed? && sid.request in entries && entries[sid.request].bound.Some? ==>
          && !s.phase.Starting? && !s.phase.Reserved? && !s.phase.Exited?
          && s.reservation == entries[sid.request].bound
          && s.freed == (if entries[sid.request].clientFinished then 1 else 0))
  }

  ghost predicate EntryFits(streams: map<Sid, Stream>, id: Rid, e: Entry) {
    && id != "" && (e.bound.Some? ==> Headed(id) in streams)
    && (e.bound.None? ==> !e.clientFinished)
  }

  ghost predicate StreamsFitLedger(reservations: Reservations, streams: map<Sid, Stream>) {
    forall sid | sid in streams :: LedgerFits(reservations, streams[sid])
  }

  ghost predicate StreamsFitEntries(entries: Entries, streams: map<Sid, Stream>) {
    && (forall sid | sid in streams :: SlotFits(entries, sid, streams[sid]))
    && (forall id | id in entries :: EntryFits(streams, id, entries[id]))
  }

  ghost predicate Consistent(w: World) {
    Valid(w.db) && StreamsFitLedger(w.db.reservations, w.streams) && StreamsFitEntries(w.entries, w.streams)
  }

  // The store moved on: consistent, and every reservation only forward.
  ghost predicate Forward(db: Db, after: Db) {
    Valid(after) && LedgerRuns.ReservationsEvolve(db.reservations, after.reservations)
  }

  lemma StepForward(env: Ledger.Env, db: Db, op: LedgerSteps.Op, now: int)
    requires Valid(db)
    ensures Forward(db, LedgerSteps.Step(env, db, op, now))
  {
    LedgerRuns.StepValid(env, db, op, now);
    LedgerRuns.StepProgress(env, db, op, now);
  }

  lemma ForwardTwice(a: Db, b: Db, c: Db)
    requires Forward(a, b) && Forward(b, c)
    ensures Forward(a, c)
  {
    forall id | id in a.reservations
      ensures id in c.reservations && LedgerRuns.Evolves(a.reservations[id], c.reservations[id])
    {
      assert LedgerRuns.Evolves(a.reservations[id], b.reservations[id]);
      assert LedgerRuns.Evolves(b.reservations[id], c.reservations[id]);
    }
  }

  lemma ForwardFits(db: Db, after: Db, s: Stream)
    requires Forward(db, after) && LedgerFits(db.reservations, s)
    ensures LedgerFits(after.reservations, s)
  {
    if s.reservation.Some? {
      assert LedgerRuns.Evolves(db.reservations[s.reservation.value], after.reservations[s.reservation.value]);
    }
  }

  // ---------- How the store answers the end of a stream ----------

  lemma FinishForward(db: Db, id: Id, now: int)
    requires Valid(db)
    ensures Forward(db, Ledger.FinishExecution(db, id, now))
  {
    if LedgerSlots.Occupies(db, id) {
      var done := db.reservations[id].(finished := Some(now));
      MarkValid(db, id, done);
      LedgerRuns.PutEvolves(db.reservations, id, done);
    }
  }

  // A successful settlement leaves nothing held, whoever settled.
  lemma SettleForward(env: Ledger.Env, db: Db, row: Id, id: Id, model: string, tokens: nat, cost: nat, fallback: bool,
                      now: int)
    requires Valid(db) && id in db.reservations
    ensures var (after, r) := Ledger.Settle(db, row, id, model, tokens, cost, fallback, now);
            Forward(db, after) && (r.Ok? ==> NotHeld(after.reservations, id))
  {
    StepForward(env, db, LedgerSteps.DoSettle(row, id, model, tokens, cost, fallback), now);
  }

  // A release leaves nothing held, whatever it answers.
  lemma ReleaseForward(env: Ledger.Env, db: Db, id: Id, now: int)
    requires Valid(db) && id in db.reservations && id != ""
    ensures Forward(db, Ledger.Release(db, id, now).0) && NotHeld(Ledger.Release(db, id, now).0.reservations, id)
  {
    StepForward(env, db, LedgerSteps.DoRelease(id), now);
    if db.reservations[id].status.Held? {
      Settlement.ReleaseEnds(db, "", id, now);
    }
  }

  lemma AttemptForward(env: Ledger.Env, db: Db, row: Id, id: Id, model: string, reserved: string, now: int)
    requires Valid(db) && id in db.reservations
    ensures var (after, ok) := Settlement.ZeroCostAttempt(db, row, id, model, reserved, now);
            Forward(db, after) && (ok ==> NotHeld(after.reservations, id))
  {
    var finished := Ledger.FinishExecution(db, id, now);
    FinishForward(db, id, now);
    SettleForward(env, finished, row, id, if model == "" then reserved else model, 0, 0, false, now);
    ForwardTwice(db, finished, Settlement.ZeroCostAttempt(db, row, id, model, reserved, now).0);
  }

  lemma UsageForward(env: Ledger.Env, db: Db, row: Id, id: Id, plan: Settlement.Plan, captured: Option<nat>,
                     parsed: Option<nat>, missing: Settlement.Missing, now: int)
    requires Valid(db) && id in db.reservations && id != ""
    ensures var (after, ok) := Settlement.FromUsage(db, row, id, plan, captured, parsed, missing, now);
            Forward(db, after) && (ok ==> NotHeld(after.reservations, id))
  {
    var finished, due := Ledger.FinishExecution(db, id, now), Settlement.Due(plan, captured, parsed, missing);
    var (after, ok) := Settlement.FromUsage(db, row, id, plan, captured, parsed, missing, now);
    FinishForward(db, id, now);
    if due.Some? {
      var fallback := Settlement.Chosen(captured, parsed).None? && plan.images.None?;
      Settlement.FromUsageSettles(db, row, id, plan, captured, parsed, missing, now);
      SettleForward(env, finished, row, id, plan.model, due.value.0, due.value.1, fallback, now);
      ForwardTwice(db, finished, after);
    } else if Settlement.Chosen(captured, parsed).None? && missing.ReleaseHold? {
      ReleaseForward(env, finished, id, now);
      ForwardTwice(db, finished, after);
    } else {
      assert after == finished && !ok;
    }
  }

  // ---------- Preservation, step by step ----------

  lemma StoreConsistent(w: World, db: Db)
    requires Consistent(w) && Forward(w.db, db)
    ensures Consistent(w.(db := db))
  {
    forall sid | sid in w.streams ensures LedgerFits(db.reservations, w.streams[sid]) {
      ForwardFits(w.db, db, w.streams[sid]);
    }
  }

  // One stream moves, the entries and the store stay.
  lemma MoveConsistent(w: World, sid: Sid, s: Stream)
    requires Consistent(w) && LedgerFits(w.db.reservations, s) && SlotFits(w.entries, sid, s)
    ensures Consistent(Move(w, sid, s))
  {
    forall id | id in w.entries ensures EntryFits(w.streams[sid := s], id, w.entries[id]) {
      assert EntryFits(w.streams, id, w.entries[id]);
    }
  }

  predicate InFlight(phase: Phase) {
    phase.Bound? || phase.Admitted? || phase.Gated? || phase.Streaming? || phase.Failing? || phase.Accounting?
      || phase.Releasing?
  }

  // A bound stream moves between its phases; a launch leaves the gate behind.
  lemma PhaseConsistent(w: World, sid: Sid, phase: Phase, launched: bool)
    requires Consistent(w) && sid in w.streams && InFlight(w.streams[sid].phase) && InFlight(phase)
    requires launched ==> !PreGate(phase) && !phase.Gated?
    ensures Consistent(Proceed(w, sid, phase, launched))
  {
    var s := w.streams[sid];
    assert LedgerFits(w.db.reservations, s) && SlotFits(w.entries, sid, s);
    MoveConsistent(w, sid, s.(phase := phase, launched := launched));
  }

  lemma ClearEntry(entries: Entries, streams: map<Sid, Stream>, sid: Sid)
    requires StreamsFitEntries(entries, streams) && sid in streams
    ensures StreamsFitEntries(Clear(entries, RequestOf(sid)), streams[sid := streams[sid].(phase := Exited)])
  {
    var after, left := streams[sid := streams[sid].(phase := Exited)], Clear(entries, RequestOf(sid));
    assert SlotFits(entries, sid, streams[sid]);
    forall x | x in after ensures SlotFits(left, x, after[x]) {
      assert x in streams && SlotFits(entries, x, streams[x]);
    }
    forall id | id in left ensures EntryFits(after, id, left[id]) {
      assert EntryFits(streams, id, entries[id]);
    }
  }

  lemma ExitConsistent(w: World, sid: Sid, db: Db)
    requires Consistent(w) && sid in w.streams && Forward(w.db, db)
    requires w.streams[sid].reservation.Some? ==> NotHeld(db.reservations, w.streams[sid].reservation.value)
    ensures Consistent(Exit(w, sid, db))
  {
    StoreConsistent(w, db);
    assert LedgerFits(db.reservations, w.streams[sid]);
    ClearEntry(w.entries, w.streams, sid);
  }

  lemma ConcludeConsistent(w: World, sid: Sid, result: (Db, bool))
    requires Consistent(w) && Forward(w.db, result.0)
    requires Holding(w, sid, Failing) || Holding(w, sid, Accounting)
    requires result.1 ==> NotHeld(result.0.reservations, w.streams[sid].reservation.value)
    ensures Consistent(Conclude(w, sid, result))
  {
    if result.1 {
      ExitConsistent(w, sid, result.0);
    } else {
      StoreConsistent(w, result.0);
      PhaseConsistent(w.(db := result.0), sid, Releasing, w.streams[sid].launched);
    }
  }

  lemma TrackConsistent(w: World, id: Rid, now: int)
    requires Consistent(w)
    ensures Consistent(w.(entries := Track(w.entries, id, now)))
  {
    var entries := Track(w.entries, id, now);
    forall sid | sid in w.streams ensures SlotFits(entries, sid, w.streams[sid]) {
      assert SlotFits(w.entries, sid, w.streams[sid]);
    }
    forall x | x in entries ensures EntryFits(w.streams, x, entries[x]) {
      assert x in w.entries ==> EntryFits(w.streams, x, w.entries[x]);
    }
  }

  lemma BindEntries(entries: Entries, streams: map<Sid, Stream>, sid: Sid)
    requires StreamsFitEntries(entries, streams)
    requires sid in streams && streams[sid].phase.Reserved? && streams[sid].reservation.Some?
    ensures var (after, gone) := Bind(entries, RequestOf(sid), streams[sid].reservation.value);
            StreamsFitEntries(after, streams[sid := streams[sid].(phase := if gone then Failing else Bound)])
  {
    var (after, gone) := Bind(entries, RequestOf(sid), streams[sid].reservation.value);
    var moved := streams[sid := streams[sid].(phase := if gone then Failing else Bound)];
    assert SlotFits(entries, sid, streams[sid]);
    forall x | x in moved ensures SlotFits(after, x, moved[x]) {
      assert SlotFits(entries, x, streams[x]);
    }
    forall id | id in after ensures EntryFits(moved, id, after[id]) {
      assert EntryFits(streams, id, entries[id]);
    }
  }

  lemma BindConsistent(env: Ledger.Env, w: World, sid: Sid)
    requires Consistent(w) && Holding(w, sid, Reserved)
    ensures Consistent(Next(env, w, DoBind(sid)))
  {
    BindEntries(w.entries, w.streams, sid);
    assert LedgerFits(w.db.reservations, w.streams[sid]);
  }

  lemma CompleteEntries(entries: Entries, streams: map<Sid, Stream>, id: Rid, canceled: bool)
    requires StreamsFitEntries(entries, streams)
    ensures var (after, frees) := Complete(entries, id, canceled);
            StreamsFitEntries(after, if frees.Some? then CountFreed(streams, id) else streams)
  {
    var (after, frees) := Complete(entries, id, canceled);
    var counted := if frees.Some? then CountFreed(streams, id) else streams;
    assert id in entries ==> EntryFits(streams, id, entries[id]);
    forall x | x in counted ensures SlotFits(after, x, counted[x]) {
      assert SlotFits(entries, x, streams[x]);
    }
    forall x | x in after ensures EntryFits(counted, x, after[x]) {
      assert EntryFits(streams, x, entries[x]);
    }
  }

  lemma CompleteConsistent(w: World, id: Rid, canceled: bool, now: int)
    requires Consistent(w)
    ensures Consistent(AfterComplete(w, id, canceled, now))
  {
    var (entries, frees) := Complete(w.entries, id, canceled);
    CompleteEntries(w.entries, w.streams, id, canceled);
    if frees.Some? {
      var counted := World(entries, CountFreed(w.streams, id), w.db);
      assert StreamsFitLedger(w.db.reservations, counted.streams) by {
        assert Headed(id) in w.streams ==> LedgerFits(w.db.reservations, w.streams[Headed(id)]);
      }
      FinishForward(w.db, frees.value, now);
      StoreConsistent(counted, Ledger.FinishExecution(w.db, frees.value, now));
    }
  }

  lemma ReserveConsistent(env: Ledger.Env, w: World, sid: Sid, req: Ledger.Request, now: int)
    requires Consistent(w) && InPhase(w, sid, Starting)
    ensures Consistent(AfterReserve(env, w, sid, req, now))
  {
    var (db, r) := Ledger.Reserve(env, w.db, req, now);
    StepForward(env, w.db, LedgerSteps.DoReserve(req), now);
    assert LedgerFits(w.db.reservations, w.streams[sid]) && SlotFits(w.entries, sid, w.streams[sid]);
    if r.Ok? {
      StoreConsistent(w, db);
      ReservedExists(env, w.db, req, now);
      MoveConsistent(w.(db := db), sid, w.streams[sid].(phase := Reserved, reservation := Some(ReservedId(w.db, req))));
    } else {
      ExitConsistent(w, sid, db);
    }
  }

  lemma ReservedExists(env: Ledger.Env, db: Db, req: Ledger.Request, now: int)
    requires Valid(db) && Ledger.Reserve(env, db, req, now).1.Ok?
    ensures ReservedId(db, req) != "" && ReservedId(db, req) in Ledger.Reserve(env, db, req, now).0.reservations
  {
  }

  lemma AttemptConsistent(env: Ledger.Env, w: World, sid: Sid, row: Id, model: string, reserved: string, now: int)
    requires Consistent(w) && Holding(w, sid, Failing)
    ensures var id := w.streams[sid].reservation.value;
            Consistent(Conclude(w, sid, Settlement.ZeroCostAttempt(w.db, row, id, model, reserved, now)))
  {
    var id := w.streams[sid].reservation.value;
    assert LedgerFits(w.db.reservations, w.streams[sid]);
    AttemptForward(env, w.db, row, id, model, reserved, now);
    ConcludeConsistent(w, sid, Settlement.ZeroCostAttempt(w.db, row, id, model, reserved, now));
  }

  lemma AccountConsistent(env: Ledger.Env, w: World, sid: Sid, row: Id, plan: Settlement.Plan, captured: Option<nat>,
                          parsed: Option<nat>, missing: Settlement.Missing, now: int)
    requires Consistent(w) && Holding(w, sid, Accounting)
    ensures var id := w.streams[sid].reservation.value;
            Consistent(Conclude(w, sid, Settlement.FromUsage(w.db, row, id, plan, captured, parsed, missing, now)))
  {
    var id := w.streams[sid].reservation.value;
    assert LedgerFits(w.db.reservations, w.streams[sid]);
    UsageForward(env, w.db, row, id, plan, captured, parsed, missing, now);
    ConcludeConsistent(w, sid, Settlement.FromUsage(w.db, row, id, plan, captured, parsed, missing, now));
  }

  lemma ReleaseConsistent(env: Ledger.Env, w: World, sid: Sid, now: int)
    requires Consistent(w) && Holding(w, sid, Releasing)
    ensures Consistent(Exit(w, sid, Ledger.Release(w.db, w.streams[sid].reservation.value, now).0))
  {
    var id := w.streams[sid].reservation.value;
    assert LedgerFits(w.db.reservations, w.streams[sid]);
    ReleaseForward(env, w.db, id, now);
    ExitConsistent(w, sid, Ledger.Release(w.db, id, now).0);
  }

  lemma RefuseConsistent(env: Ledger.Env, w: World, sid: Sid)
    requires Consistent(w) && InPhase(w, sid, Starting)
    ensures Consistent(Next(env, w, DoRefuse(sid)))
  {
    assert LedgerFits(w.db.reservations, w.streams[sid]);
    ExitConsistent(w, sid, w.db);
  }

  lemma StartConsistent(w: World, sid: Sid)
    requires Consistent(w) && sid !in w.streams
    ensures Consistent(Move(w, sid, Stream(Starting, None, false, 0)))
  {
    assert sid.Headed? && sid.request in w.entries ==> EntryFits(w.streams, sid.request, w.entries[sid.request]);
    MoveConsistent(w, sid, Stream(Starting, None, false, 0));
  }

  // The steps of others: the interceptor, completion callbacks and other uses of the store.
  lemma ForeignConsistent(env: Ledger.Env, w: World, step: Step)
    requires Consistent(w) && (step.DoTrack? || step.DoComplete? || step.DoLedger?)
    ensures Consistent(Next(env, w, step))
  {
    match step
    case DoTrack(id, now) => TrackConsistent(w, id, now);
    case DoComplete(id, canceled, now) => CompleteConsistent(w, id, canceled, now);
    case DoLedger(op, now) =>
      StepForward(env, w.db, op, now);
      StoreConsistent(w, LedgerSteps.Step(env, w.db, op, now));
  }

  // The steps of a stream that end it.
  lemma EndingConsistent(env: Ledger.Env, w: World, step: Step)
    requires Consistent(w) && Enabled(w, step)
    requires step.DoRefuse? || step.DoAttempt? || step.DoAccount? || step.DoRelease?
    ensures Consistent(Next(env, w, step))
  {
    match step
    case DoRefuse(sid) => RefuseConsistent(env, w, sid);
    case DoAttempt(sid, row, model, reserved, now) => AttemptConsistent(env, w, sid, row, model, reserved, now);
    case DoAccount(sid, row, plan, captured, parsed, missing, now) =>
      AccountConsistent(env, w, sid, row, plan, captured, parsed, missing, now);
    case DoRelease(sid, now) => ReleaseConsistent(env, w, sid, now);
  }

  lemma CheckConsistent(env: Ledger.Env, w: World, step: Step)
    requires Consistent(w) && Enabled(w, step) && (step.DoAdmit? || step.DoGate?)
    ensures Consistent(Next(env, w, step))
  {
    match step
    case DoAdmit(sid, ok) => PhaseConsistent(w, sid, if ok then Admitted else Failing, w.streams[sid].launched);
    case DoGate(sid) =>
      PhaseConsistent(w, sid, if MayLaunch(w.entries, RequestOf(sid)) then Gated else Failing, w.streams[sid].launched);
  }

  lemma LaunchConsistent(w: World, sid: Sid, reply: Reply)
    requires Consistent(w) && InPhase(w, sid, Gated)
    ensures Consistent(Proceed(w, sid, AfterReply(reply), true))
  {
    PhaseConsistent(w, sid, AfterReply(reply), true);
  }

  lemma UpstreamConsistent(env: Ledger.Env, w: World, step: Step)
    requires Consistent(w) && Enabled(w, step) && (step.DoLaunch? || step.DoRead?)
    ensures Consistent(Next(env, w, step))
  {
    match step
    case DoLaunch(sid, reply) => LaunchConsistent(w, sid, reply);
    case DoRead(sid, last) => PhaseConsistent(w, sid, if last then Accounting else Streaming, w.streams[sid].launched);
  }

  lemma StepConsistent(env: Ledger.Env, w: World, step: Step)
    requires Consistent(w) && Enabled(w, step)
    ensures Consistent(Next(env, w, step))
  {
    if step.DoTrack? || step.DoComplete? || step.DoLedger? {
      ForeignConsistent(env, w, step);
    } else if step.DoRefuse? || step.DoAttempt? || step.DoAccount? || step.DoRelease? {
      EndingConsistent(env, w, step);
    } else if step.DoStart? {
      StartConsistent(w, step.sid);
    } else if step.DoReserve? {
      ReserveConsistent(env, w, step.sid, step.req, step.now);
    } else if step.DoBind? {
      BindConsistent(env, w, step.sid);
    } else if step.DoAdmit? || step.DoGate? {
      CheckConsistent(env, w, step);
    } else {
      UpstreamConsistent(env, w, step);
    }
  }

  lemma {:induction false} RunConsistent(env: Ledger.Env, w: World, steps: seq<Step>)
    requires Consistent(w) && Runs(env, w, steps)
    ensures Consistent(Final(env, w, steps))
    decreases |steps|
  {
    if steps != [] {
      StepConsistent(env, w, steps[0]);
      RunConsistent(env, Next(env, w, steps[0]), steps[1..]);
    }
  }

  // However streams, callbacks and other store steps interleave: the reservation of every stream that
  // returned is settled or released and occupies no request slot, no reserved stream returns without
  // one, and no stream's client slot is freed twice.
  lemma StreamsFinalize(env: Ledger.Env, steps: seq<Step>, sid: Sid)
    requires Runs(env, START, steps) && sid in Final(env, START, steps).streams
    ensures var w := Final(env, START, steps);
            var s := w.streams[sid];
            && s.freed <= 1 && (s.launched ==> s.reservation.Some?)
            && (s.reservation.Some? ==> s.reservation.value in w.db.reservations)
            && (s.phase.Exited? && s.reservation.Some? ==>
                  var status := w.db.reservations[s.reservation.value].status;
                  (status.Settled? || status.Released?) && !LedgerSlots.Occupies(w.db, s.reservation.value))
  {
    RunConsistent(env, START, steps);
    var w := Final(env, START, steps);
    assert LedgerFits(w.db.reservations, w.streams[sid]) && SlotFits(w.entries, sid, w.streams[sid]);
  }

  lemma ReservationStays(env: Ledger.Env, w: World, step: Step, sid: Sid)
    requires Enabled(w, step) && sid in w.streams && !w.streams[sid].phase.Starting?
    ensures var next := Next(env, w, step);
            && sid in next.streams && next.streams[sid].reservation == w.streams[sid].reservation
            && (w.streams[sid].phase.Exited? ==> next.streams[sid].phase.Exited?)
  {
  }

  // A reservation a stream made stays with it, and a stream that returned never comes back: what it
  // ended stays ended.
  lemma {:induction false} ReservationKept(env: Ledger.Env, w: World, steps: seq<Step>, sid: Sid)
    requires Consistent(w) && Runs(env, w, steps) && sid in w.streams && w.streams[sid].reservation.Some?
    ensures var last := Final(env, w, steps);
            && sid in last.streams && last.streams[sid].reservation == w.streams[sid].reservation
            && (w.streams[sid].phase.Exited? ==> last.streams[sid].phase.Exited?)
    decreases |steps|
  {
    if steps != [] {
      assert LedgerFits(w.db.reservations, w.streams[sid]);
      ReservationStays(env, w, steps[0], sid);
      StepConsistent(env, w, steps[0]);
      ReservationKept(env, Next(env, w, steps[0]), steps[1..], sid);
    }
  }

  // ---------- Cancel and forget ----------

  // The cancel callback establishes the block whenever it finds the entry before the gate.
  lemma CancelBlocks(env: Ledger.Env, w: World, id: HeaderId, now: int)
    requires Consistent(w) && id in w.entries
    requires Headed(id) in w.streams ==> PreGate(w.streams[Headed(id)].phase)
    ensures Blocked(Next(env, w, DoComplete(id, true, now)), id)
  {
    assert Headed(id) in w.streams ==> LedgerFits(w.db.reservations, w.streams[Headed(id)]);
  }

  // Each forgetting step undoes the block: from wherever a reserved stream stood with its cancel
  // pending, it can then reach the upstream call.
  lemma ForgettingLaunches(env: Ledger.Env, w: World, step: Step, id: HeaderId)
    requires Consistent(w) && CancelPending(w, id) && Enabled(w, step) && Forgets(w, step, id)
    requires Headed(id) in w.streams && !w.streams[Headed(id)].phase.Starting?
    ensures var way := WayToLaunch(w.streams[Headed(id)].phase, Headed(id));
            var next := Next(env, w, step);
            Runs(env, next, way) && Launched(Final(env, next, way), Headed(id))
  {
    var sid, next := Headed(id), Next(env, w, step);
    assert LedgerFits(w.db.reservations, w.streams[sid]) && SlotFits(w.entries, sid, w.streams[sid]);
    match w.streams[sid].phase
    case Reserved => ReservedLaunches(env, next, sid);
    case Bound => BoundLaunches(env, next, sid);
    case Admitted => GateOpens(env, next, sid);
  }

  // ---------- The three ways to forget, from the beginning ----------

  const OPEN_POLICY: Ledger.Policy := Ledger.Policy(true, None, None, 0, 0, 0, 0, [], [], false)

  const FIRST_REQUEST: Ledger.Request := Ledger.Request("r", "c", "k", "i", "m", 1, 0)

  // A caller and a key.
  const SETUP: seq<Step> :=
    [DoLedger(LedgerSteps.DoPutCaller("c", true), 0), DoLedger(LedgerSteps.DoCreateKey("k", "c", OPEN_POLICY), 0)]

  // A tracked stream that reserves at once.
  function Begin(id: HeaderId): seq<Step> {
    [DoTrack(id, 0), DoStart(Headed(id)), DoReserve(Headed(id), FIRST_REQUEST, 0)]
  }

  function Began(id: HeaderId, canceled: bool): World {
    World(map[id := Entry(0, None, canceled, false)], map[Headed(id) := Stream(Reserved, Some("r"), false, 0)],
          Ledger.WithHold(WithKey(), FIRST_REQUEST, 0))
  }

  function WithKey(): Db {
    Ledger.Db(map["c" := true], map["k" := Ledger.Key("c", false, OPEN_POLICY, 0, 0, None, None, None, None)],
              map[], map[])
  }

  lemma SetupIsReachable(env: Ledger.Env)
    ensures Runs(env, START, SETUP) && Final(env, START, SETUP) == World(map[], map[], WithKey())
  {
    var a := Next(env, START, SETUP[0]);
    var b := Next(env, a, SETUP[1]);
    assert b == World(map[], map[], WithKey());
    Replay(env, a, SETUP[1], []);
    Replay(env, START, SETUP[0], [SETUP[1]]);
  }

  lemma FirstReserve(env: Ledger.Env)
    ensures var (db, r) := Ledger.Reserve(env, WithKey(), FIRST_REQUEST, 0);
            r.Ok? && ReservedId(WithKey(), FIRST_REQUEST) == "r" && db == Ledger.WithHold(WithKey(), FIRST_REQUEST, 0)
  {
    var db := WithKey();
    assert !Ledger.HasIdem(db, "c", "i");
    assert Ledger.TokenRefusal(env, db, "k", "m", 1, 0).None?;
    assert Ledger.EarlyRefusal(env, db, FIRST_REQUEST, 0).None?;
  }

  lemma BeginFollows(env: Ledger.Env, id: HeaderId)
    ensures var w := World(map[], map[], WithKey());
            Runs(env, w, Begin(id)) && Final(env, w, Begin(id)) == Began(id, false)
  {
    var w, steps := World(map[], map[], WithKey()), Begin(id);
    var a := Next(env, w, steps[0]);
    assert a.entries == map[id := Entry(0, None, false, false)];
    var b := Next(env, a, steps[1]);
    FirstReserve(env);
    Replay(env, b, steps[2], []);
    Replay(env, a, steps[1], [steps[2]]);
    Replay(env, w, steps[0], [steps[1], steps[2]]);
  }

  lemma CancelFollows(env: Ledger.Env, id: HeaderId)
    ensures Runs(env, Began(id, false), [DoComplete(id, true, 0)])
    ensures Final(env, Began(id, false), [DoComplete(id, true, 0)]) == Began(id, true)
  {
    Replay(env, Began(id, false), DoComplete(id, true, 0), []);
  }

  function ToCancel(id: HeaderId): seq<Step> {
    (SETUP + Begin(id)) + [DoComplete(id, true, 0)]
  }

  lemma CancelIsReachable(env: Ledger.Env, id: HeaderId)
    ensures Runs(env, START, ToCancel(id)) && Final(env, START, ToCancel(id)) == Began(id, true)
  {
    SetupIsReachable(env);
    BeginFollows(env, id);
    RunsOn(env, START, SETUP, Begin(id));
    CancelFollows(env, id);
    RunsOn(env, START, SETUP + Begin(id), [DoComplete(id, true, 0)]);
  }

  // The exception is real in all three ways: from the empty world a recorded cancel is followed by
  // the upstream call after tracking the request again, after an ordinary completion, and after
  // tracking any other request five minutes later.
  lemma ForgettingIsReal(env: Ledger.Env, id: HeaderId, forget: Step, other: HeaderId)
    requires forget == DoTrack(id, 0) || forget == DoComplete(id, false, 0)
             || (forget == DoTrack(other, PENDING_TTL) && other != id)
    ensures var steps := ToCancel(id) + ([forget] + WayToLaunch(Reserved, Headed(id)));
            && Runs(env, START, ToCancel(id)) && Blocked(Final(env, START, ToCancel(id)), id)
            && Runs(env, START, steps) && Launched(Final(env, START, steps), Headed(id))
  {
    var w, way := Began(id, true), WayToLaunch(Reserved, Headed(id));
    CancelIsReachable(env, id);
    EmptyValid();
    RunConsistent(env, START, ToCancel(id));
    ForgettingLaunches(env, w, forget, id);
    Replay(env, w, forget, way);
    RunsOn(env, START, ToCancel(id), [forget] + way);
  }
}
