// Round-robin fairness of the scheduler over whole runs: picks for many keys, interleaved with
// admissions, callbacks, warmups and everything else that happens under the mutex.
module AuthFairness {
  import opened Base
  import opened StableSort
  import opened RoundRobin
  import opened AuthCapture
  import opened AuthCaps

  // The rotation a step performs: a round-robin pick without a live session binding.
  ghost predicate Rotates(setup: Setup, s: State, step: Step, now: int) {
    && step.DoPick? && step.req.strategy.RoundRobinNext? && step.candidates != []
    && var available := SortedAvailable(s, setup.limits, step.candidates);
       available != [] && BoundEither(s.affinity, SessionKeys(step.req, available[0].provider), available, now).None?
  }

  ghost function Rotation(setup: Setup, s: State, step: Step, now: int): (call: Call)
    requires Rotates(setup, s, step, now)
    ensures Offered(call.ids)
  {
    SortedAvailableProperties(s, setup.limits, step.candidates);
    var available := SortedAvailable(s, setup.limits, step.candidates);
    TierProperties(available);
    var tier := Tier(available);
    TierIsOffered(tier);
    Call(CursorKey(tier[0].provider, step.req.model), Ids(tier))
  }

  // A rotating pick returns the next id of its key and remembers it; no other step touches the table.
  lemma StepRotates(setup: Setup, s: State, step: Step, now: int, t: State)
    requires Moves(setup, s, step, now, t)
    ensures t.lasts == if Rotates(setup, s, step, now) then Serve(s.lasts, Rotation(setup, s, step, now)) else s.lasts
  {
    if step.DoPick? {
      var r :| PickStep(s, setup.limits, step.req, step.candidates, now, t, r);
    }
  }

  lemma RotatingPick(setup: Setup, s: State, step: Step, now: int, t: State, r: PickResult)
    requires Rotates(setup, s, step, now) && PickStep(s, setup.limits, step.req, step.candidates, now, t, r)
    ensures var call := Rotation(setup, s, step, now);
            r.Picked? && r.id == Next(call.ids, LastOf(s.lasts, call.key))
  {
    var available := SortedAvailable(s, setup.limits, step.candidates);
    TierProperties(available);
    var tier := Tier(available);
    OfferedIsFound(tier, Next(Ids(tier), LastOf(s.lasts, CursorKey(tier[0].provider, step.req.model))));
  }

  ghost function Rotations(setup: Setup, s: State, es: seq<Event>): (calls: seq<Call>)
    ensures CallsOffered(calls)
  {
    if es == [] then []
    else
      var n := |es| - 1;
      var before, earlier := Final(s, es[..n]), Rotations(setup, s, es[..n]);
      if Rotates(setup, before, es[n].step, es[n].now)
      then earlier + [Rotation(setup, before, es[n].step, es[n].now)] else earlier
  }

  // The ids the rotating picks of one key returned.
  ghost function PickedIds(setup: Setup, s: State, es: seq<Event>, key: string): seq<AuthId> {
    if es == [] then []
    else
      var n := |es| - 1;
      var before, earlier := Final(s, es[..n]), PickedIds(setup, s, es[..n], key);
      if Rotates(setup, before, es[n].step, es[n].now) && Rotation(setup, before, es[n].step, es[n].now).key == key
      then earlier + [Next(Rotation(setup, before, es[n].step, es[n].now).ids, LastOf(before.lasts, key))]
      else earlier
  }

  ghost function ServeAll(lasts: Lasts, calls: seq<Call>): Lasts
    requires CallsOffered(calls)
    decreases |calls|
  {
    if calls == [] then lasts
    else
      assert calls[0] in calls;
      ServeAll(Serve(lasts, calls[0]), calls[1..])
  }

  lemma {:induction false} ServeOneMore(lasts: Lasts, calls: seq<Call>, call: Call, key: string)
    requires CallsOffered(calls) && Offered(call.ids)
    ensures CallsOffered(calls + [call])
    ensures ServeAll(lasts, calls + [call]) == Serve(ServeAll(lasts, calls), call)
    ensures PicksFor(lasts, calls + [call], key)
         == PicksFor(lasts, calls, key)
           + (if call.key == key then [Next(call.ids, LastOf(ServeAll(lasts, calls), key))] else [])
    decreases |calls|
  {
    if calls == [] {
      assert calls + [call] == [call];
      assert [call][1..] == [];
    } else {
      assert calls[0] in calls;
      ServeOneMore(Serve(lasts, calls[0]), calls[1..], call, key);
      assert (calls + [call])[1..] == calls[1..] + [call];
    }
  }

  // The picks of a run are the picks of its rotations alone.
  lemma {:induction false} RunRotates(setup: Setup, s: State, es: seq<Event>, key: string)
    requires Runs(setup, s, es)
    ensures var calls := Rotations(setup, s, es);
            && Final(s, es).lasts == ServeAll(s.lasts, calls)
            && PickedIds(setup, s, es, key) == PicksFor(s.lasts, calls, key)
  {
    if es != [] {
      var n := |es| - 1;
      var before := Final(s, es[..n]);
      RunRotates(setup, s, es[..n], key);
      StepRotates(setup, before, es[n].step, es[n].now, es[n].after);
      if Rotates(setup, before, es[n].step, es[n].now) {
        ServeOneMore(s.lasts, Rotations(setup, s, es[..n]), Rotation(setup, before, es[n].step, es[n].now), key);
      }
    }
  }

  // Fairness of the scheduler: in any run with at most 4096 keys in use, an auth in the best
  // available tier of every rotating pick for a key is picked at least once in any N of them, N being
  // the number of distinct auths that were ever in that tier.
  lemma SchedulerIsFair(setup: Setup, s: State, es: seq<Event>, key: string, all: set<AuthId>, a: AuthId)
    requires Runs(setup, s, es)
    requires var calls := Rotations(setup, s, es);
             && |s.lasts.Keys + KeysOf(calls)| <= MAX_KEYS
             && (forall call | call in calls && call.key == key ::
                   a in call.ids && forall x | x in call.ids :: x in all)
             && |OffersFor(calls, key)| >= |all| > 0
    ensures a in PickedIds(setup, s, es, key)
  {
    RunRotates(setup, s, es, key);
    InterleavedWaiting(all, s.lasts, Rotations(setup, s, es), key, a);
  }
}
