// runStream of internal/plugin/execute.go, return path by return path, over the store, the auth desk
// and the lifecycle table.
module StreamRun {
  import opened Base
  import opened StreamLifecycle
  import AuthCapture
  import Ledger
  import opened LedgerInvariant
  import Settlement
  import StreamEnds
  import StreamGate

  type Db = Ledger.Db

  // What one read of the host stream brings: an error, an undecodable reply, an error chunk, or a
  // payload that may complete the response, may fail to reach the client and may be the last.
  datatype Chunk = ReadError | BadChunk | ErrorChunk | Payload(terminal: bool, emitted: bool, done: bool)

  // What the host answers: the auth it names, the reply to the upstream call, the chunks of its
  // stream (which ends in a read error unless a chunk is the last) and the usage in what was read.
  datatype Host = Host(auth: AuthCapture.Auth, reply: StreamGate.Reply, chunks: seq<Chunk>, parsed: Option<nat>)

  // How runStream returns.
  datatype Exit =
    | Refused(error: Ledger.Error) | ClientGone | AuthFull | HostFailed | BadStatus
    | ReadFailed | Undecodable | ErrorReported | EmitFailed | Done

  // How the read loop returns on these chunks.
  function ReadExit(chunks: seq<Chunk>): (exit: Exit)
    ensures EndsReading(exit)
  {
    if chunks == [] then ReadFailed
    else
      match chunks[0]
      case ReadError => ReadFailed
      case BadChunk => Undecodable
      case ErrorChunk => ErrorReported
      case Payload(_, emitted, last) => if !emitted then EmitFailed else if last then Done else ReadExit(chunks[1..])
  }

  predicate EndsReading(exit: Exit) {
    exit.ReadFailed? || exit.Undecodable? || exit.ErrorReported? || exit.EmitFailed? || exit.Done?
  }

  function LaunchExit(host: Host): Exit {
    match host.reply
    case Opened => ReadExit(host.chunks)
    case UpstreamStatus => BadStatus
    case _ => HostFailed
  }

  // The transition system of StreamGate takes the same way after the upstream call.
  lemma PhaseMatchesExit(host: Host)
    ensures match LaunchExit(host)
            case HostFailed => StreamGate.AfterReply(host.reply) == StreamGate.Failing
            case BadStatus => StreamGate.AfterReply(host.reply) == StreamGate.Accounting
            case _ => StreamGate.AfterReply(host.reply) == StreamGate.Streaming
  {
  }

  // The return path a stream takes once admission has been decided.
  function AdmittedExit(admitted: bool, open: bool, host: Host): Exit {
    if !admitted then AuthFull else if !open then ClientGone else LaunchExit(host)
  }

  // The return path of a reserved stream, from the lifecycle table and the auth desk it starts with.
  ghost function ExitOf(entries: Entries, desk: AuthCapture.State, limits: AuthCapture.Limits, request: Rid,
                        models: seq<string>, id: Id, host: Host, now: int): Exit
  {
    var tracked := AuthCapture.Track(desk, id, models, now);
    if Bind(entries, request, id).1 then ClientGone
    else AdmittedExit(AuthCapture.Admit(limits, tracked, id, host.auth).1, true, host)
  }

  // The request as the stream sees it once reserved: its reservation, the ledger id its row will
  // get, the plan, the model the reservation names, and the policy for missing usage.
  datatype Job = Job(id: Id, row: Id, plan: Settlement.Plan, reserved: string, missing: Settlement.Missing)

  // A usage that was priced leaves a row with it, free of charge under an unpriced plan; a usage that
  // was not leaves none.
  function RowOf(plan: Settlement.Plan, tokens: nat, price: Option<nat>): Settlement.Outcome {
    if price.None? then Settlement.Freed
    else if plan.unpriced then Settlement.Recorded(tokens, 0)
    else Settlement.Recorded(tokens, price.value)
  }

  // Whether the stream returned with the upstream call made, and with the response read to an end.
  predicate Launched(exit: Exit) {
    exit != ClientGone && exit != AuthFull && exit != HostFailed
  }

  predicate ReadToAnEnd(exit: Exit) {
    exit == Done || exit == ReadFailed || exit == ErrorReported || exit == EmitFailed
  }

  // What a stream that returned by `exit` leaves of its hold. Nothing is recorded without a model name
  // or under a taken row id. A stream that was not launched leaves a row of zeros. Otherwise usage
  // reported by the host counts first, then that of a response read to an end, then the policy: no
  // row, the planned images, or a row of zeros.
  function Left(rows: map<Id, Ledger.Row>, job: Job, exit: Exit, host: Host, heard: Option<nat>): Settlement.Outcome {
    if job.row in rows || (job.plan.model == "" && (Launched(exit) || job.reserved == "")) then Settlement.Freed
    else if !Launched(exit) then Settlement.Recorded(0, 0)
    else if heard.Some? then RowOf(job.plan, heard.value, job.plan.price(heard.value))
    else if ReadToAnEnd(exit) && host.parsed.Some? then
      RowOf(job.plan, host.parsed.value, job.plan.price(host.parsed.value))
    else if job.missing.ReleaseHold? then Settlement.Freed
    else if job.plan.images.Some? then RowOf(job.plan, 0, job.plan.images.value)
    else Settlement.Recorded(0, 0)
  }

  lemma AttemptLeft(db: Db, job: Job, exit: Exit, host: Host, heard: Option<nat>)
    requires !Launched(exit)
    ensures Settlement.AttemptOutcome(db, job.row, job.plan.model, job.reserved)
         == Left(db.ledger, job, exit, host, heard)
  {
  }

  lemma UsageLeft(db: Db, job: Job, exit: Exit, host: Host, heard: Option<nat>, parsed: Option<nat>)
    requires Launched(exit) && parsed == if ReadToAnEnd(exit) then host.parsed else None
    ensures Settlement.UsageOutcome(db, job.row, job.plan, heard, parsed, job.missing)
         == Left(db.ledger, job, exit, host, heard)
  {
  }

  // The reservation is ended: in any case not held, and if it was held, by that outcome alone.
  ghost predicate EndedBy(before: Db, after: Db, job: Job, outcome: Settlement.Outcome) {
    && Valid(after) && StreamEnds.NotHeld(after.reservations, job.id)
    && (Settlement.IsHeld(before, job.id) ==> Settlement.EndsAs(before, after, job.row, job.id, outcome))
  }

  // Marking the execution finished beforehand changes nothing about the ending.
  lemma EndedAfterFinish(db: Db, after: Db, job: Job, outcome: Settlement.Outcome, now: int)
    requires Valid(db) && EndedBy(Ledger.FinishExecution(db, job.id, now), after, job, outcome)
    ensures EndedBy(db, after, job, outcome)
  {
    if Settlement.IsHeld(db, job.id) {
      Settlement.FinishKeepsHold(db, job.id, now);
      Settlement.EndsAfterFinish(db, after, job.row, job.id, outcome, now);
    }
  }

  // Nothing but the execution mark may have changed.
  ghost predicate OnlyMarked(before: Db, db: Db, id: Id, now: int) {
    db == before || db == Ledger.FinishExecution(before, id, now)
  }

  lemma MarkedAgain(before: Db, db: Db, id: Id, now: int)
    requires OnlyMarked(before, db, id, now)
    ensures OnlyMarked(before, Ledger.FinishExecution(db, id, now), id, now)
  {
  }

  lemma EndedAfterMarks(before: Db, db: Db, after: Db, job: Job, outcome: Settlement.Outcome, now: int)
    requires Valid(before) && OnlyMarked(before, db, job.id, now) && EndedBy(db, after, job, outcome)
    ensures EndedBy(before, after, job, outcome)
  {
    if db != before {
      EndedAfterFinish(before, after, job, outcome, now);
    }
  }

  lemma AttemptLeavesNothing(env: Ledger.Env, db: Db, job: Job, now: int)
    requires Valid(db) && job.id != "" && job.id in db.reservations
    ensures var attempt := Settlement.ZeroCostAttempt(db, job.row, job.id, job.plan.model, job.reserved, now);
            StreamEnds.NotHeld(Settlement.OrRelease(attempt, job.id, now).reservations, job.id)
  {
    var attempt := Settlement.ZeroCostAttempt(db, job.row, job.id, job.plan.model, job.reserved, now);
    StreamEnds.AttemptForward(env, db, job.row, job.id, job.plan.model, job.reserved, now);
    if !attempt.1 {
      StreamEnds.ReleaseForward(env, attempt.0, job.id, now);
    }
  }

  lemma UsageLeavesNothing(env: Ledger.Env, db: Db, job: Job, captured: Option<nat>, parsed: Option<nat>, now: int)
    requires Valid(db) && job.id != "" && job.id in db.reservations
    ensures var usage := Settlement.FromUsage(db, job.row, job.id, job.plan, captured, parsed, job.missing, now);
            StreamEnds.NotHeld(Settlement.OrRelease(usage, job.id, now).reservations, job.id)
  {
    var usage := Settlement.FromUsage(db, job.row, job.id, job.plan, captured, parsed, job.missing, now);
    StreamEnds.UsageForward(env, db, job.row, job.id, job.plan, captured, parsed, job.missing, now);
    if !usage.1 {
      StreamEnds.ReleaseForward(env, usage.0, job.id, now);
    }
  }

  // Marking the execution finished once more, on the way out, changes nothing.
  lemma EndedAlready(db: Db, id: Id, now: int)
    requires StreamEnds.NotHeld(db.reservations, id)
    ensures Ledger.FinishExecution(db, id, now) == db
  {
  }

  // Leaving the stream undoes what binding did to the table.
  lemma ClearUndoesBind(entries: Entries, request: Rid, id: Id)
    ensures Clear(Bind(entries, request, id).0, request) == Clear(entries, request)
  {
  }

  // The usage that host callbacks have reported for the reservation.
  function Heard(desk: AuthCapture.State, id: Id, now: int): Option<nat> {
    AuthCapture.CapturedUsage(AuthCapture.Pruned(desk.pending, now), id)
  }

  lemma AdmissionKeepsHeard(limits: AuthCapture.Limits, desk: AuthCapture.State, id: Id, auth: AuthCapture.Auth,
                            now: int)
    ensures Heard(AuthCapture.Admit(limits, desk, id, auth).0, id, now) == Heard(desk, id, now)
  {
  }

  // A request just tracked has no usage yet.
  lemma NothingHeardYet(desk: AuthCapture.State, id: Id, models: seq<string>, now: int)
    requires id != "" && models != []
    ensures Heard(AuthCapture.Track(desk, id, models, now), id, now).None?
  {
  }

  // A reserve that met no earlier reservation made the hold itself.
  lemma FreshHold(env: Ledger.Env, db: Db, req: Ledger.Request, now: int)
    requires Ledger.Reserve(env, db, req, now).1.Ok? && !Ledger.HasIdem(db, req.caller, req.idem)
    ensures var (held, r) := Ledger.Reserve(env, db, req, now);
            Settlement.IsHeld(held, req.id) && held.ledger == db.ledger && r.value.model == req.model
  {
  }

  class Plugin {
    const service: Settlement.Service
    const lifecycles: StreamLifecycles

    constructor ()
      ensures fresh(service) && fresh(service.store) && fresh(service.desk) && fresh(lifecycles)
      ensures Valid(service.store.State())
    {
      service := new Settlement.Service();
      lifecycles := new StreamLifecycles();
    }

    // The zero-cost ending of a return path.
    method EndAttempt(env: Ledger.Env, job: Job, now: int)
      requires Valid(service.store.State()) && job.id != "" && job.id in service.store.reservations
      modifies service.store, service.desk
      ensures EndedBy(old(service.store.State()), service.store.State(), job,
                      Settlement.AttemptOutcome(old(service.store.State()), job.row, job.plan.model, job.reserved))
    {
      AttemptLeavesNothing(env, service.store.State(), job, now);
      service.SettleAttemptOrRelease(job.row, job.id, job.plan.model, job.reserved, now);
    }

    // The ending of a return path that settles from usage.
    method EndUsage(env: Ledger.Env, job: Job, parsed: Option<nat>, now: int)
      requires Valid(service.store.State()) && job.id != "" && job.id in service.store.reservations
      modifies service.store, service.desk
      ensures var before, heard := old(service.store.State()), Heard(old(service.desk.View()), job.id, now);
              EndedBy(before, service.store.State(), job,
                      Settlement.UsageOutcome(before, job.row, job.plan, heard, parsed, job.missing))
    {
      UsageLeavesNothing(env, service.store.State(), job, Heard(service.desk.View(), job.id, now), parsed, now);
      ghost var captured := service.EndStream(job.row, job.id, job.plan, parsed, job.missing, now);
    }

    // The read loop: a terminal payload marks the execution finished while the stream goes on.
    method ReadChunks(job: Job, chunks: seq<Chunk>, now: int) returns (exit: Exit)
      requires Valid(service.store.State())
      modifies service.store, service.desk
      ensures exit == ReadExit(chunks)
      ensures Valid(service.store.State()) && OnlyMarked(old(service.store.State()), service.store.State(), job.id, now)
      ensures Heard(service.desk.View(), job.id, now) == Heard(old(service.desk.View()), job.id, now)
    {
      ghost var before, heard := service.store.State(), Heard(service.desk.View(), job.id, now);
      exit := ReadFailed;
      var i := 0;
      while i < |chunks| && exit == ReadFailed
        invariant 0 <= i <= |chunks|
        invariant ReadExit(chunks) == if exit.ReadFailed? then ReadExit(chunks[i..]) else exit
        invariant Valid(service.store.State()) && OnlyMarked(before, service.store.State(), job.id, now)
        invariant Heard(service.desk.View(), job.id, now) == heard
        decreases |chunks| - i
      {
        var chunk := chunks[i];
        assert chunks[i..][1..] == chunks[i + 1..];
        i := i + 1;
        match chunk {
          case ReadError => break;
          case BadChunk => exit := Undecodable;
          case ErrorChunk => exit := ErrorReported;
          case Payload(terminal, emitted, last) =>
            if terminal {
              Settlement.PruneKeepsUsage(service.desk.View(), job.id, now);
              MarkedAgain(before, service.store.State(), job.id, now);
              service.FinishExecution(job.id, now);
            }
            exit := if !emitted then EmitFailed else if last then Done else ReadFailed;
        }
      }
    }

    // The open stream and its five return paths.
    method ReadStream(env: Ledger.Env, job: Job, host: Host, now: int) returns (exit: Exit)
      requires Valid(service.store.State()) && job.id != "" && job.id in service.store.reservations
      modifies service.store, service.desk
      ensures exit == ReadExit(host.chunks)
      ensures EndedBy(old(service.store.State()), service.store.State(), job,
                      Left(old(service.store.ledger), job, exit, host, Heard(old(service.desk.View()), job.id, now)))
    {
      ghost var before, heard := service.store.State(), Heard(service.desk.View(), job.id, now);
      exit := ReadChunks(job, host.chunks, now);
      ghost var db := service.store.State();
      ghost var parsed := if exit == Undecodable then None else host.parsed;
      UsageLeft(db, job, exit, host, heard, parsed);
      EndUsage(env, job, if exit == Undecodable then None else host.parsed, now);
      EndedAfterMarks(before, db, service.store.State(), job, Left(db.ledger, job, exit, host, heard), now);
    }

    // The return paths of an upstream call that brought no stream.
    method FailHost(env: Ledger.Env, job: Job, host: Host, now: int) returns (exit: Exit)
      requires Valid(service.store.State()) && job.id != "" && job.id in service.store.reservations
      modifies service.store, service.desk
      ensures exit == HostFailed
      ensures EndedBy(old(service.store.State()), service.store.State(), job,
                      Left(old(service.store.ledger), job, exit, host, Heard(old(service.desk.View()), job.id, now)))
    {
      exit := HostFailed;
      AttemptLeft(service.store.State(), job, exit, host, Heard(service.desk.View(), job.id, now));
      EndAttempt(env, job, now);
    }

    // The upstream call and the return paths after it.
    method Launch(env: Ledger.Env, job: Job, host: Host, now: int) returns (exit: Exit)
      requires Valid(service.store.State()) && job.id != "" && job.id in service.store.reservations
      modifies service.store, service.desk
      ensures exit == LaunchExit(host)
      ensures EndedBy(old(service.store.State()), service.store.State(), job,
                      Left(old(service.store.ledger), job, exit, host, Heard(old(service.desk.View()), job.id, now)))
    {
      ghost var db, heard := service.store.State(), Heard(service.desk.View(), job.id, now);
      match host.reply {
        case Opened => exit := ReadStream(env, job, host, now);
        case UpstreamStatus =>
          UsageLeft(db, job, BadStatus, host, heard, None);
          EndUsage(env, job, None, now);
          exit := BadStatus;
        case HostError =>
          exit := FailHost(env, job, host, now);
        case BadReply =>
          exit := FailHost(env, job, host, now);
        case EmptyStreamId =>
          exit := FailHost(env, job, host, now);
      }
    }

    // Admission, the gate and what follows.
    method Admit(env: Ledger.Env, limits: AuthCapture.Limits, request: Rid, job: Job, host: Host, now: int)
      returns (exit: Exit)
      requires Valid(service.store.State()) && job.id != "" && job.id in service.store.reservations
      modifies service.store, service.desk
      ensures exit == AdmittedExit(AuthCapture.Admit(limits, old(service.desk.View()), job.id, host.auth).1,
                                   MayLaunch(lifecycles.entries, request), host)
      ensures EndedBy(old(service.store.State()), service.store.State(), job,
                      Left(old(service.store.ledger), job, exit, host, Heard(old(service.desk.View()), job.id, now)))
    {
      AdmissionKeepsHeard(limits, service.desk.View(), job.id, host.auth, now);
      var admitted := service.desk.AdmitAuth(limits, job.id, host.auth);
      if !admitted {
        AttemptLeft(service.store.State(), job, AuthFull, host, Heard(service.desk.View(), job.id, now));
        EndAttempt(env, job, now);
        return AuthFull;
      }
      var open := lifecycles.BeginUpstream(request);
      if !open {
        AttemptLeft(service.store.State(), job, ClientGone, host, Heard(service.desk.View(), job.id, now));
        EndAttempt(env, job, now);
        return ClientGone;
      }
      exit := Launch(env, job, host, now);
    }

    // What a bound stream does, from the capture to the deferred end of its execution.
    method RunBound(env: Ledger.Env, limits: AuthCapture.Limits, request: Rid, models: seq<string>, job: Job,
                    host: Host, now: int)
      returns (exit: Exit)
      requires models != []
      requires Valid(service.store.State()) && job.id != "" && job.id in service.store.reservations
      modifies service.store, service.desk
      ensures var tracked := AuthCapture.Track(old(service.desk.View()), job.id, models, now);
              exit == AdmittedExit(AuthCapture.Admit(limits, tracked, job.id, host.auth).1,
                                   MayLaunch(lifecycles.entries, request), host)
      ensures EndedBy(old(service.store.State()), service.store.State(), job,
                      Left(old(service.store.ledger), job, exit, host, None))
    {
      NothingHeardYet(service.desk.View(), job.id, models, now);
      service.desk.TrackAuthCapture(job.id, models, now);
      exit := Admit(env, limits, request, job, host, now);
      EndedAlready(service.store.State(), job.id, now);
      service.FinishExecution(job.id, now);
    }

    // From the lifecycle binding to the return: every path settles or releases the reservation.
    method Execute(env: Ledger.Env, limits: AuthCapture.Limits, request: Rid, models: seq<string>, job: Job, host: Host,
                   now: int)
      returns (exit: Exit)
      requires models != []
      requires Valid(service.store.State()) && job.id != "" && job.id in service.store.reservations
      modifies service.store, service.desk, lifecycles
      ensures var desk := old(service.desk.View());
              exit == ExitOf(old(lifecycles.entries), desk, limits, request, models, job.id, host, now)
      ensures lifecycles.entries == Bind(old(lifecycles.entries), request, job.id).0
      ensures EndedBy(old(service.store.State()), service.store.State(), job,
                      Left(old(service.store.ledger), job, exit, host, None))
    {
      var gone := lifecycles.BindStream(request, job.id);
      if gone {
        AttemptLeft(service.store.State(), job, ClientGone, host, None);
        EndAttempt(env, job, now);
        return ClientGone;
      }
      exit := RunBound(env, limits, request, models, job, host, now);
    }

    // runStream from the reserve on. A refused reserve leaves at most a rejected attempt; after a
    // successful one the reservation is ended on every return path, and a fresh hold by exactly the
    // outcome of that path.
    method RunStream(env: Ledger.Env, limits: AuthCapture.Limits, request: Rid, req: Ledger.Request,
                     plan: Settlement.Plan, missing: Settlement.Missing, host: Host, attempt: Ledger.NewId, row: Id,
                     now: int)
      returns (exit: Exit, id: Id)
      requires Valid(service.store.State())
      modifies service.store, service.desk, lifecycles
      ensures Valid(service.store.State())
      ensures var (db, r) := Ledger.Reserve(env, old(service.store.State()), req, now);
              if r.Err?
              then exit == Refused(r.error)
                   && service.store.State() == Ledger.Reject(db, attempt, row, req.caller, req.key, plan.model, now).0
              else
                var desk, models := old(service.desk.View()), [plan.model, req.model];
                var job := Job(id, row, plan, r.value.model, missing);
                && exit == ExitOf(old(lifecycles.entries), desk, limits, request, models, id, host, now)
                && EndedBy(db, service.store.State(), job,
                      Left(db.ledger, job, exit, host, None))
      ensures !exit.Refused? && !Ledger.HasIdem(old(service.store.State()), req.caller, req.idem) ==> id == req.id
      ensures lifecycles.entries == Clear(old(lifecycles.entries), request)
    {
      var r;
      r, id := service.store.Reserve(env, req, now);
      if r.Err? {
        var recorded := service.store.InsertRejectedAttempt(attempt, row, req.caller, req.key, plan.model, now);
        lifecycles.ClearStream(request);
        return Refused(r.error), id;
      }
      var job := Job(id, row, plan, r.value.model, missing);
      ClearUndoesBind(lifecycles.entries, request, id);
      exit := Execute(env, limits, request, [plan.model, req.model], job, host, now);
      lifecycles.ClearStream(request);
    }
  }
}
