// Late usage callbacks against settlement (internal/service/reserve.go, internal/plugin/usage.go):
// every interleaving of one reservation's settlement with the callbacks matched to its capture.
// Each step is one section under the mutex or one store call.
module HostUsage {
  import opened Base
  import opened AuthCapture

  const LEDGER: Id := "ledger"

  // Where settlement stands: not begun; begun with usage the host had already reported, with usage
  // parsed from the response, or with neither; the ledger id published but the row not committed;
  // the row committed.
  datatype Settler = Fresh | Reported(usage: Usage) | Parsed(usage: Usage) | Missing | Published(usage: Usage) | Done

  // `applying`: usages of callbacks that were handed the ledger id and have not updated the row yet.
  // `matched`: all usages of callbacks matched to the capture. The row's 0 is the fallback estimate.
  datatype Wire = Wire(
    capture: Option<Capture>, settler: Settler, row: Option<Usage>, applying: multiset<Usage>, matched: set<Usage>)

  datatype Step =
    | Check(parsed: Option<Usage>)
    | SettleMissing
    | Publish
    | Commit
    | Observe(rec: Record)
    | Apply(usage: Usage)
    | Attribute(auth: Auth)
    | FinishSlot

  predicate Enabled(w: Wire, step: Step) {
    match step
    case Check(_) => w.settler.Fresh?
    case SettleMissing => w.settler.Missing?
    case Publish => w.settler.Reported? || w.settler.Parsed?
    case Commit => w.settler.Published?
    case Observe(rec) => w.capture.Some? && CanUse(w.capture.value, rec)
    case Apply(usage) => usage in w.applying
    case Attribute(_) => w.capture.Some?
    case FinishSlot => w.capture.Some?
  }

  function Captured(capture: Option<Capture>): Option<Usage> {
    if capture.None? then None else capture.value.usage
  }

  function Next(w: Wire, step: Step): Wire
    requires Enabled(w, step)
  {
    match step
    case Check(parsed) =>
      var captured := Captured(w.capture);
      w.(settler := if captured.Some? then Reported(captured.value)
                    else if parsed.Some? then Parsed(parsed.value)
                    else Missing)
    case SettleMissing =>
      var captured := Captured(w.capture);
      w.(row := Some(if captured.Some? then captured.value else 0), settler := Done,
         capture := if w.capture.None? then None else AfterMissing(w.capture.value, LEDGER))
    case Publish =>
      w.(settler := Published(w.settler.usage),
         capture := if w.capture.None? then None else AfterSettlement(w.capture.value, LEDGER))
    case Commit => w.(settler := Done, row := Some(w.settler.usage))
    case Observe(rec) =>
      var c := w.capture.value;
      w.(capture := AfterRecord(c, rec),
         matched := if rec.usage > 0 then w.matched + {rec.usage} else w.matched,
         applying := if rec.usage > 0 && c.ledgerId != "" then w.applying + multiset{rec.usage} else w.applying)
    // Without a committed row the update fails and is ignored.
    case Apply(usage) =>
      w.(applying := w.applying - multiset{usage}, row := if w.row.Some? then Some(usage) else None)
    case Attribute(auth) => w.(capture := Some(w.capture.value.(auth := Some(auth))))
    case FinishSlot => w.(capture := Some(w.capture.value.(active := false)))
  }

  ghost predicate Runs(w: Wire, steps: seq<Step>)
    decreases |steps|
  {
    steps != [] ==> Enabled(w, steps[0]) && Runs(Next(w, steps[0]), steps[1..])
  }

  ghost function Final(w: Wire, steps: seq<Step>): Wire
    requires Runs(w, steps)
    decreases |steps|
  {
    if steps == [] then w else Final(Next(w, steps[0]), steps[1..])
  }

  function Tracked(models: seq<string>, now: int): Wire {
    Wire(Some(Capture(models, now, true, "", None, None)), Fresh, None, multiset{}, {})
  }

  // No usage was parsed from the response: the settlement is on the fallback path.
  ghost predicate OnFallback(steps: seq<Step>) {
    forall step | step in steps && step.Check? :: step.parsed.None?
  }

  // ---------- No lost usage ----------

  // The capture and the callbacks in flight only carry matched usages.
  ghost predicate Honest(w: Wire) {
    && (Captured(w.capture).Some? ==> Captured(w.capture).value in w.matched)
    && (forall u | u in w.applying :: u in w.matched)
    && 0 !in w.matched
  }

  // Before the ledger id is published every matched usage waits in the capture; once the row exists
  // it carries a matched usage, or one is on its way, or none was ever matched.
  ghost predicate Kept(w: Wire) {
    && Honest(w)
    && match w.settler
       case Fresh => Waiting(w)
       case Missing => Waiting(w)
       case Reported(u) => Unpublished(w) && u in w.matched
       case Published(u) => w.row.None? && u in w.matched && (w.capture.Some? ==> w.capture.value.ledgerId != "")
       case Done =>
         && (w.capture.Some? ==> w.capture.value.ledgerId != "")
         && w.row.Some?
         && (w.row.value in w.matched || (w.row.value == 0 && (w.matched == {} || w.applying != multiset{})))
       case Parsed(_) => false
  }

  ghost predicate Unpublished(w: Wire) {
    w.row.None? && w.applying == multiset{} && w.capture.Some? && w.capture.value.ledgerId == ""
  }

  ghost predicate Waiting(w: Wire) {
    Unpublished(w) && (w.matched != {} ==> w.capture.value.usage.Some?)
  }

  lemma StepKept(w: Wire, step: Step)
    requires Kept(w) && Enabled(w, step) && (step.Check? ==> step.parsed.None?)
    ensures Kept(Next(w, step))
  {
    if step.Apply? {
      assert step.usage in w.matched;
    }
  }

  lemma {:induction false} RunKept(w: Wire, steps: seq<Step>)
    requires Kept(w) && Runs(w, steps) && OnFallback(steps)
    ensures Kept(Final(w, steps))
    decreases |steps|
  {
    if steps != [] {
      assert steps[0] in steps && forall step | step in steps[1..] :: step in steps;
      StepKept(w, steps[0]);
      RunKept(Next(w, steps[0]), steps[1..]);
    }
  }

  // On the fallback path no callback is lost: once settlement and the callbacks have finished, in
  // whatever order they interleaved, the row carries the usage of a matched callback, or the
  // fallback if there was none.
  lemma NoLostUsage(models: seq<string>, now: int, steps: seq<Step>)
    requires Runs(Tracked(models, now), steps) && OnFallback(steps)
    ensures var w := Final(Tracked(models, now), steps);
            w.settler.Done? && w.applying == multiset{} ==>
              w.row.Some? && (if w.matched == {} then w.row.value == 0 else w.row.value in w.matched)
  {
    RunKept(Tracked(models, now), steps);
  }

  // With a single matched callback that is exactly its usage.
  lemma SingleCallbackWins(models: seq<string>, now: int, steps: seq<Step>, usage: Usage)
    requires Runs(Tracked(models, now), steps) && OnFallback(steps)
    requires var w := Final(Tracked(models, now), steps);
             w.settler.Done? && w.applying == multiset{} && w.matched == {usage}
    ensures Final(Tracked(models, now), steps).row == Some(usage)
  {
    NoLostUsage(models, now, steps);
  }

  // ---------- The parsed path ----------

  // The last usage applied after the commit.
  ghost function LateApply(w: Wire, steps: seq<Step>): Option<Usage>
    requires Runs(w, steps)
    decreases |steps|
  {
    if steps == [] then None
    else
      var later := LateApply(Next(w, steps[0]), steps[1..]);
      if later.Some? then later
      else if steps[0].Apply? && w.settler.Done? then Some(steps[0].usage)
      else None
  }

  predicate Settles(w: Wire, usage: Usage) {
    match w.settler
    case Parsed(u) => u == usage && w.row.None?
    case Published(u) => u == usage && w.row.None?
    case Done => w.row == Some(usage)
    case _ => false
  }

  // Where the response carried usage, that usage stands unless a callback updates the row after it
  // was committed: a callback is kept if and only if its update ran after the commit.
  lemma {:induction false} ParsedOutcome(w: Wire, steps: seq<Step>, usage: Usage)
    requires Settles(w, usage) && Runs(w, steps)
    ensures var last := Final(w, steps);
            last.settler.Done? ==>
              last.row == Some(if LateApply(w, steps).Some? then LateApply(w, steps).value else usage)
    decreases |steps|
  {
    if steps != [] {
      var next := Next(w, steps[0]);
      ParsedOutcome(next, steps[1..], if steps[0].Apply? && w.settler.Done? then steps[0].usage else usage);
    }
  }

  // A finished settlement with one matched callback of 9 tokens, none of which reached the row.
  predicate LostNine(w: Wire) {
    w.settler.Done? && w.applying == multiset{} && w.matched == {9} && w.row == Some(4)
  }

  // Both ways of losing a callback of 9 tokens to a parsed usage of 4: observed before the id was
  // published, so it is never applied; applied between publication and commit, so it finds no row.
  lemma ParsedPathCanLose(models: seq<string>, now: int, rec: Record)
    requires rec.usage == 9
    ensures var early := [Check(Some(4)), Observe(rec), Publish, Commit];
            Runs(Tracked(models, now), early) && LostNine(Final(Tracked(models, now), early))
    ensures var between := [Check(Some(4)), Publish, Observe(rec), Apply(9), Commit];
            Runs(Tracked(models, now), between) && LostNine(Final(Tracked(models, now), between))
  {
    var start := Tracked(models, now);
    EarlyIsLost(Next(start, Check(Some(4))), rec);
    BetweenIsLost(Next(start, Check(Some(4))), rec);
    Replay(start, Check(Some(4)), [Observe(rec), Publish, Commit]);
    Replay(start, Check(Some(4)), [Publish, Observe(rec), Apply(9), Commit]);
  }

  // Settlement knows a parsed usage of 4; the capture is fresh.
  predicate ParsedFour(w: Wire) {
    && w.settler == Parsed(4) && w.row.None? && w.applying == multiset{} && w.matched == {}
    && w.capture.Some? && w.capture.value.ledgerId == "" && w.capture.value.usage.None?
  }

  lemma EarlyIsLost(w: Wire, rec: Record)
    requires ParsedFour(w) && rec.usage == 9
    ensures Runs(w, [Observe(rec), Publish, Commit]) && LostNine(Final(w, [Observe(rec), Publish, Commit]))
  {
    var seen := Next(w, Observe(rec));
    Replay(Next(seen, Publish), Commit, []);
    Replay(seen, Publish, [Commit]);
    Replay(w, Observe(rec), [Publish, Commit]);
  }

  lemma BetweenIsLost(w: Wire, rec: Record)
    requires ParsedFour(w) && rec.usage == 9
    ensures var steps := [Publish, Observe(rec), Apply(9), Commit]; Runs(w, steps) && LostNine(Final(w, steps))
  {
    var published := Next(w, Publish);
    var handed := Next(published, Observe(rec));
    Replay(Next(handed, Apply(9)), Commit, []);
    Replay(handed, Apply(9), [Commit]);
    Replay(published, Observe(rec), [Apply(9), Commit]);
    Replay(w, Publish, [Observe(rec), Apply(9), Commit]);
  }

  lemma Replay(w: Wire, step: Step, rest: seq<Step>)
    requires Enabled(w, step)
    ensures Runs(w, [step] + rest) <==> Runs(Next(w, step), rest)
    ensures Runs(Next(w, step), rest) ==> Final(w, [step] + rest) == Final(Next(w, step), rest)
  {
    assert ([step] + rest)[1..] == rest;
  }
}
