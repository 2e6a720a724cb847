// The concurrency cap of one limited auth over every run of captures, picks, warmups and callbacks.
module AuthCaps {
  import opened Base
  import opened Sums
  import opened StableSort
  import opened RoundRobin
  import opened AuthCapture

  // ---------- What a change of captures or holds does to the count ----------

  ghost function Count(s: State, p: string, a: AuthId): int {
    InUse(s, p, a, "")
  }

  // Reservation ids are never empty.
  ghost predicate WellKeyed(s: State) {
    "" !in s.pending
  }

  lemma FewerCaptures(s: State, t: State, p: string, a: AuthId)
    requires t.holds == s.holds && t.pending.Keys <= s.pending.Keys
    requires forall id | id in t.pending && Occupies(t.pending[id], p, a) :: Occupies(s.pending[id], p, a)
    ensures Count(t, p, a) <= Count(s, p, a)
  {
    SumSubset(s.pending, t.pending, CaptureUse(p, a, ""));
  }

  lemma OneCapture(s: State, t: State, id: Id, c: Capture, p: string, a: AuthId)
    requires id != "" && id in s.pending && t.holds == s.holds && t.pending == s.pending[id := c] && a != 0
    ensures Count(t, p, a)
            == Count(s, p, a) - (if Occupies(s.pending[id], p, a) then 1 else 0) + (if Occupies(c, p, a) then 1 else 0)
  {
    SumUpdate(s.pending, CaptureUse(p, a, ""), id, c);
  }

  // Leaving one reservation out of the count.
  lemma CountExcept(s: State, id: Id, p: string, a: AuthId)
    requires id != "" && id in s.pending && WellKeyed(s) && a != 0
    ensures InUse(s, p, a, id) == Count(s, p, a) - (if Occupies(s.pending[id], p, a) then 1 else 0)
  {
    var all, others := CaptureUse(p, a, ""), CaptureUse(p, a, id);
    SumRemove(s.pending, all, id);
    SumRemove(s.pending, others, id);
    SumSame(s.pending - {id}, s.pending - {id}, all, others);
  }

  // ---------- Steps that cannot raise the count ----------

  lemma TrackStep(s: State, id: Id, models: seq<string>, now: int, p: string, a: AuthId)
    ensures Count(Track(s, id, models, now), p, a) <= Count(s, p, a)
  {
    var before, t := s.(pending := Pruned(s.pending, now)), Track(s, id, models, now);
    if t != s {
      FewerCaptures(s, before, p, a);
      SumUpdate(before.pending, CaptureUse(p, a, ""), id, t.pending[id]);
    }
  }

  lemma FinishStep(s: State, id: Id, p: string, a: AuthId)
    ensures Count(Finish(s, id), p, a) <= Count(s, p, a)
  {
    FewerCaptures(s, Finish(s, id), p, a);
  }

  lemma CancelStep(s: State, id: Id, p: string, a: AuthId)
    ensures Count(Cancel(s, id), p, a) <= Count(s, p, a)
  {
    FewerCaptures(s, Cancel(s, id), p, a);
  }

  lemma PruneStep(s: State, now: int, p: string, a: AuthId)
    ensures Count(s.(pending := Pruned(s.pending, now)), p, a) <= Count(s, p, a)
  {
    FewerCaptures(s, s.(pending := Pruned(s.pending, now)), p, a);
  }

  lemma SettleStep(s: State, id: Id, ledgerId: Id, now: int, p: string, a: AuthId)
    ensures Count(AuthForSettlement(s, id, ledgerId, now).0, p, a) <= Count(s, p, a)
  {
    FewerCaptures(s, AuthForSettlement(s, id, ledgerId, now).0, p, a);
  }

  lemma ReleaseStep(s: State, run: Id, p: string, a: AuthId)
    ensures Count(ReleaseWarmup(s, run), p, a) <= Count(s, p, a)
  {
    SumSubset(s.holds, ReleaseWarmup(s, run).holds, HoldUse(p, a));
  }

  // ---------- Admission, picks, warmups ----------

  // A bind of an auth with room, or of another auth, stays within the cap.
  lemma BindWithin(s: State, t: State, id: Id, auth: Auth, p: string, a: AuthId, limit: nat)
    requires WellKeyed(s) && id in s.pending && t.holds == s.holds && t.pending == Bind(s.pending, id, auth)
    requires a != 0 && (SameAuth(auth, p, a) ==> InUse(s, p, a, id) < limit || Count(s, p, a) < limit)
    ensures Count(t, p, a) <= Max(limit, Count(s, p, a))
  {
    CountExcept(s, id, p, a);
    OneCapture(s, t, id, t.pending[id], p, a);
  }

  lemma AdmitStep(limits: Limits, s: State, id: Id, auth: Auth, p: string, a: AuthId)
    requires WellKeyed(s) && LimitOf(limits, p, a) > 0
    ensures Count(Admit(limits, s, id, auth).0, p, a) <= Max(LimitOf(limits, p, a), Count(s, p, a))
  {
    var t := Admit(limits, s, id, auth).0;
    if t != s {
      BindWithin(s, t, id, auth, p, a, LimitOf(limits, p, a));
    }
  }

  lemma {:induction false} AvailableIsUsable(s: State, limits: Limits, candidates: seq<Candidate>)
    ensures forall c :: c in Available(s, limits, candidates) <==> c in candidates && Usable(s, limits, c)
  {
    if candidates != [] {
      var n := |candidates| - 1;
      AvailableIsUsable(s, limits, candidates[..n]);
      assert candidates == candidates[..n] + [candidates[n]];
    }
  }

  lemma {:induction false} FirstWithIsMember(available: seq<Candidate>, id: AuthId)
    ensures var c := FirstWith(available, id); c.Some? ==> c.value in available && c.value.id == id
    ensures FirstWith(available, id).None? <==> forall c | c in available :: c.id != id
  {
    if available != [] {
      FirstWithIsMember(available[1..], id);
      assert forall c :: c in available <==> c == available[0] || c in available[1..];
    }
  }

  lemma {:induction false} LeastBusyIsLeast(s: State, tier: seq<Candidate>)
    requires tier != []
    ensures var b := LeastBusyOf(s, tier);
            b in tier && forall c | c in tier :: Count(s, b.provider, b.id) <= Count(s, c.provider, c.id)
  {
    var n := |tier| - 1;
    if n > 0 {
      LeastBusyIsLeast(s, tier[..n]);
      assert forall c :: c in tier <==> c == tier[n] || c in tier[..n];
    }
  }

  // The scheduler only ever chooses an available candidate: the bound one of a live session, or one
  // of the highest priority tier.
  lemma ChosenIsAvailable(s: State, limits: Limits, req: PickRequest, available: seq<Candidate>, now: int)
    requires available != []
    ensures var chosen := Choose(s, limits, req, available, now).0;
            var bound := BoundEither(s.affinity, SessionKeys(req, available[0].provider), available, now);
            && chosen in available
            && (if bound.Some? then chosen == bound.value
                else forall c | c in available :: c.priority <= chosen.priority)
  {
    TierProperties(available);
    var tier := Tier(available);
    forall id ensures var c := FirstWith(available, id); c.Some? ==> c.value in available {
      FirstWithIsMember(available, id);
    }
    FirstWithIsMember(tier, Next(Ids(tier), LastOf(s.lasts, CursorKey(tier[0].provider, req.model))));
    LeastBusyIsLeast(s, tier);
  }

  lemma PickHasRoom(s: State, limits: Limits, req: PickRequest, candidates: seq<Candidate>, now: int, t: State,
                    r: PickResult)
    requires PickStep(s, limits, req, candidates, now, t, r) && r.Picked?
    ensures exists c | c in candidates :: c.provider == r.provider && c.id == r.id && Usable(s, limits, c)
  {
    SortedAvailableProperties(s, limits, candidates);
    ChosenIsAvailable(s, limits, req, SortedAvailable(s, limits, candidates), now);
  }

  lemma TierIsOffered(tier: seq<Candidate>)
    requires tier != [] && SortedById(tier) && forall c | c in tier :: c.id > 0
    ensures Offered(Ids(tier))
  {
    assert forall i | 0 <= i < |tier| :: Ids(tier)[i] == tier[i].id && tier[i] in tier;
  }

  lemma OfferedIsFound(tier: seq<Candidate>, id: AuthId)
    requires id in Ids(tier)
    ensures var c := FirstWith(tier, id); c.Some? && c.value.id == id
  {
    FirstWithIsMember(tier, id);
    var i :| 0 <= i < |tier| && Ids(tier)[i] == id;
    assert tier[i] in tier && tier[i].id == id;
  }

  lemma RotationChooses(s: State, limits: Limits, req: PickRequest, available: seq<Candidate>, now: int)
    requires available != [] && SortedById(available) && forall c | c in available :: c.id > 0
    requires req.strategy.RoundRobinNext? && !req.sticky
    ensures var tier := Tier(available);
            && tier != [] && Offered(Ids(tier))
            && var call := Call(CursorKey(tier[0].provider, req.model), Ids(tier));
            && Choose(s, limits, req, available, now).2 == Serve(s.lasts, call)
            && Choose(s, limits, req, available, now).0.id == Next(call.ids, LastOf(s.lasts, call.key))
  {
    TierProperties(available);
    var tier := Tier(available);
    TierIsOffered(tier);
    OfferedIsFound(tier, Next(Ids(tier), LastOf(s.lasts, CursorKey(tier[0].provider, req.model))));
  }

  ghost function SortedAvailable(s: State, limits: Limits, candidates: seq<Candidate>): seq<Candidate> {
    Sorted(Available(s, limits, candidates), ById())
  }

  lemma SortedAvailableProperties(s: State, limits: Limits, candidates: seq<Candidate>)
    ensures SortedById(SortedAvailable(s, limits, candidates))
    ensures forall c :: c in SortedAvailable(s, limits, candidates) <==> c in candidates && Usable(s, limits, c)
  {
    var raw := Available(s, limits, candidates);
    SortedMembers(raw, ById());
    SortedAscending(raw, ById());
    AvailableIsUsable(s, limits, candidates);
    var available := Sorted(raw, ById());
    forall i, j | 0 <= i < j < |available| ensures available[i].id <= available[j].id {
      assert ById()(available[i]) <= ById()(available[j]);
    }
  }

  // A pick without session affinity rotates: it serves the call of module RoundRobin whose offers
  // are the ids of the best available tier, so the fairness results there apply to it.
  lemma PickRotates(s: State, limits: Limits, req: PickRequest, candidates: seq<Candidate>, now: int, t: State,
                    r: PickResult)
    requires PickStep(s, limits, req, candidates, now, t, r) && r.Picked? && req.strategy.RoundRobinNext? && !req.sticky
    ensures var available := SortedAvailable(s, limits, candidates);
            && available != []
            && var tier := Tier(available);
            && tier != [] && Offered(Ids(tier))
            && var call := Call(CursorKey(tier[0].provider, req.model), Ids(tier));
            && t.lasts == Serve(s.lasts, call) && r.id == Next(call.ids, LastOf(s.lasts, call.key))
  {
    SortedAvailableProperties(s, limits, candidates);
    RotationChooses(s, limits, req, SortedAvailable(s, limits, candidates), now);
  }

  // ---------- Session affinity ----------

  lemma BindAffinityBinds(affinity: Affinity, key: AffinityKey, c: Candidate, expires: int, now: int)
    ensures var after := BindAffinity(affinity, Some(key), c, expires, now);
            && key in after && after[key] == Binding(c.id, c.provider, expires)
            && |after| <= |affinity| + 1
            && (|affinity| < MAX_AFFINITY ==>
              forall k | k in affinity && k != key :: k in after && after[k] == affinity[k])
  {
    if key !in affinity && |affinity| >= MAX_AFFINITY {
      var live := map k | k in affinity && now <= affinity[k].expires :: affinity[k];
      MapNoLarger(live, affinity);
    }
  }

  lemma MapNoLarger(a: Affinity, b: Affinity)
    requires a.Keys <= b.Keys
    ensures |a| <= |b|
  {
    SubsetSize(a.Keys, b.Keys);
    assert |a| == |a.Keys| && |b| == |b.Keys|;
  }

  // The bindings a pick leaves for both keys of its session, while the binding table has room for them.
  lemma PickBindsSession(s: State, limits: Limits, req: PickRequest, candidates: seq<Candidate>, now: int, t: State,
                         r: PickResult)
    requires PickStep(s, limits, req, candidates, now, t, r) && r.Picked? && |s.affinity| + 1 < MAX_AFFINITY
    ensures var available := SortedAvailable(s, limits, candidates);
            && available != []
            && var keys := SessionKeys(req, available[0].provider);
            forall key | key in {keys.0, keys.1} && key.Some? ::
              key.value in t.affinity && t.affinity[key.value] == Binding(r.id, r.provider, now + req.ttl)
  {
    var available := SortedAvailable(s, limits, candidates);
    var keys, chosen := SessionKeys(req, available[0].provider), Choose(s, limits, req, available, now).0;
    var once := BindAffinity(s.affinity, keys.0, chosen, now + req.ttl, now);
    if keys.0.Some? {
      BindAffinityBinds(s.affinity, keys.0.value, chosen, now + req.ttl, now);
    }
    if keys.1.Some? {
      BindAffinityBinds(once, keys.1.value, chosen, now + req.ttl, now);
    }
  }

  // A session stays on its auth: while the binding is live and the auth is available, whatever the
  // strategy, the tiers and the other candidates, the pick is the bound auth.
  lemma BoundSessionStays(s: State, limits: Limits, req: PickRequest, candidates: seq<Candidate>, now: int, t: State,
                          r: PickResult)
    requires PickStep(s, limits, req, candidates, now, t, r)
    requires var available := SortedAvailable(s, limits, candidates);
             && available != []
             && var key := SessionKeys(req, available[0].provider).0;
             && key.Some? && key.value in s.affinity && now < s.affinity[key.value].expires
             && exists c | c in available :: c.id == s.affinity[key.value].id
    ensures r.Picked?
            && r.id == s.affinity[SessionKeys(req, SortedAvailable(s, limits, candidates)[0].provider).0.value].id
  {
    var available := SortedAvailable(s, limits, candidates);
    var key := SessionKeys(req, available[0].provider).0;
    FirstWithIsMember(available, s.affinity[key.value].id);
  }

  lemma PickCapped(s: State, limits: Limits, req: PickRequest, candidates: seq<Candidate>, now: int, t: State,
                   r: PickResult, p: string, a: AuthId)
    requires WellKeyed(s) && PickStep(s, limits, req, candidates, now, t, r) && LimitOf(limits, p, a) > 0
    ensures Count(t, p, a) <= Max(LimitOf(limits, p, a), Count(s, p, a))
  {
    if r.Picked? {
      PickHasRoom(s, limits, req, candidates, now, t, r);
      var auth := Auth(r.provider, r.id, false);
      if t.pending != s.pending {
        var id :| id in s.pending && t.pending == Bind(s.pending, id, auth);
        BindWithin(s, t, id, auth, p, a, LimitOf(limits, p, a));
      }
    }
  }

  lemma AcquireStep(s: State, run: Id, auth: Auth, p: string, a: AuthId, limit: nat)
    requires p != "" && a != 0 && limit > 0
    ensures Count(AcquireWarmup(s, run, auth).0, p, a) <= Max(limit, Count(s, p, a))
  {
    SumUpdate(s.holds, HoldUse(p, a), run, auth);
  }

  // ---------- Callbacks ----------

  // An observation that puts auth (p, a) on a capture that is still active.
  ghost predicate Attributes(s: State, step: Step, now: int, p: string, a: AuthId) {
    && step.DoObserve? && step.best.Some? && step.best.value in Pruned(s.pending, now)
    && var c := Pruned(s.pending, now)[step.best.value];
       c.auth.None? && AfterRecord(c, step.rec).Some? && Occupies(AfterRecord(c, step.rec).value, p, a)
  }

  // An observation raises the count by one exactly when it attributes; what it prunes leaves first.
  lemma ObserveCount(setup: Setup, s: State, step: Step, now: int, t: State, p: string, a: AuthId)
    requires WellKeyed(s) && Moves(setup, s, step, now, t) && step.DoObserve? && a != 0
    ensures Count(t, p, a) <= Count(s, p, a) + (if Attributes(s, step, now, p, a) then 1 else 0)
    ensures Pruned(s.pending, now) == s.pending && step.rec.models != {} && Attributes(s, step, now, p, a) ==>
            Count(t, p, a) == Count(s, p, a) + 1
  {
    var before := s.(pending := Pruned(s.pending, now));
    FewerCaptures(s, before, p, a);
    if step.rec.models != {} && step.best.Some? {
      var id := step.best.value;
      var after := AfterRecord(before.pending[id], step.rec);
      if after.Some? {
        OneCapture(before, t, id, after.value, p, a);
      } else {
        FewerCaptures(before, t, p, a);
      }
    }
  }

  // A callback takes a limited auth above its limit if and only if it attributes the auth to a request
  // in flight while the auth, after pruning, is exactly at its limit.
  lemma ObserveExceeds(setup: Setup, s: State, step: Step, now: int, t: State, p: string, a: AuthId, limit: nat)
    requires WellKeyed(s) && Moves(setup, s, step, now, t) && step.DoObserve? && a != 0 && Count(s, p, a) <= limit
    ensures Count(t, p, a) > limit <==>
            Attributes(s, step, now, p, a) && Count(s.(pending := Pruned(s.pending, now)), p, a) == limit
  {
    var before := s.(pending := Pruned(s.pending, now));
    FewerCaptures(s, before, p, a);
    ObserveCount(setup, s, step, now, t, p, a);
    if Attributes(s, step, now, p, a) {
      var id := step.best.value;
      OneCapture(before, t, id, AfterRecord(before.pending[id], step.rec).value, p, a);
    }
  }

  // ---------- The cap ----------

  lemma StepKeyed(setup: Setup, s: State, step: Step, now: int, t: State)
    requires WellKeyed(s) && Moves(setup, s, step, now, t)
    ensures WellKeyed(t)
  {
  }

  // Only an attributing observation can push a limited auth above its limit, and by one.
  lemma StepCapped(setup: Setup, s: State, step: Step, now: int, t: State, p: string, a: AuthId)
    requires WellKeyed(s) && Moves(setup, s, step, now, t) && LimitOf(setup.limits, p, a) > 0
    ensures Count(t, p, a)
            <= Max(LimitOf(setup.limits, p, a), Count(s, p, a)) + (if Attributes(s, step, now, p, a) then 1 else 0)
  {
    match step
    case DoAdmit(id, auth) => AdmitStep(setup.limits, s, id, auth, p, a);
    case DoPick(req, candidates) =>
      var r :| PickStep(s, setup.limits, req, candidates, now, t, r);
      PickCapped(s, setup.limits, req, candidates, now, t, r, p, a);
    case DoAcquire(run, auth) => AcquireStep(s, run, auth, p, a, LimitOf(setup.limits, p, a));
    case DoObserve(_, _) => ObserveCount(setup, s, step, now, t, p, a);
    case DoTrack(id, models) => TrackStep(s, id, models, now, p, a);
    case DoFinish(id) => FinishStep(s, id, p, a);
    case DoCancel(id) => CancelStep(s, id, p, a);
    case DoSettle(id, ledgerId) => SettleStep(s, id, ledgerId, now, p, a);
    case DoPrune => PruneStep(s, now, p, a);
    case DoRelease(run) => ReleaseStep(s, run, p, a);
  }

  ghost function Attributions(s: State, es: seq<Event>, p: string, a: AuthId): nat {
    if es == [] then 0
    else
      var n := |es| - 1;
      Attributions(s, es[..n], p, a) + (if Attributes(Final(s, es[..n]), es[n].step, es[n].now, p, a) then 1 else 0)
  }

  // With fixed limits, the active captures plus warmup holds of a limited auth never exceed its
  // limit (or where they started), plus one per callback that attributed the auth to a request
  // still in flight.
  lemma {:induction false} RunCapped(setup: Setup, s: State, es: seq<Event>, p: string, a: AuthId)
    requires WellKeyed(s) && Runs(setup, s, es) && LimitOf(setup.limits, p, a) > 0
    ensures WellKeyed(Final(s, es))
    ensures Count(Final(s, es), p, a) <= Max(LimitOf(setup.limits, p, a), Count(s, p, a)) + Attributions(s, es, p, a)
  {
    if es != [] {
      var n := |es| - 1;
      RunCapped(setup, s, es[..n], p, a);
      var before := Final(s, es[..n]);
      StepKeyed(setup, before, es[n].step, es[n].now, es[n].after);
      StepCapped(setup, before, es[n].step, es[n].now, es[n].after, p, a);
    }
  }

  // From an idle start and without such callbacks the cap is absolute.
  lemma CapHolds(setup: Setup, es: seq<Event>, p: string, a: AuthId)
    requires Runs(setup, EMPTY, es) && LimitOf(setup.limits, p, a) > 0 && Attributions(EMPTY, es, p, a) == 0
    ensures Count(Final(EMPTY, es), p, a) <= LimitOf(setup.limits, p, a)
  {
    RunCapped(setup, EMPTY, es, p, a);
    SumEmpty(CaptureUse(p, a, ""));
    SumEmpty(HoldUse(p, a));
  }

  // The exception is real: with a limit of 1, one request on auth 1 and one unattributed request,
  // a callback naming auth 1 puts both on it.
  lemma CallbackCanExceed(related: Matcher, models: seq<string>, names: set<string>)
    requires names != {} && related(models, names)
    ensures var setup := Setup(map[("p", 1) := 1], related);
            var auth := Auth("p", 1, true);
            var bound := Capture(models, 0, true, "", Some(auth), None);
            var unbound := Capture(models, 5, true, "", None, None);
            var s := State(map["r1" := bound, "r2" := unbound], map[], map[], map[]);
            var step := DoObserve(Record(Some(5), auth, 0, names), Some("r2"));
            var t := s.(pending := s.pending["r2" := s.pending["r2"].(auth := Some(auth))]);
            Moves(setup, s, step, 5, t) && Count(s, "p", 1) == 1 && Count(t, "p", 1) == 2
  {
    var setup := Setup(map[("p", 1) := 1], related);
    var auth := Auth("p", 1, true);
    var busy, free := Capture(models, 0, true, "", Some(auth), None), Capture(models, 5, true, "", None, None);
    var s := State(map["r1" := busy, "r2" := free], map[], map[], map[]);
    var rec := Record(Some(5), auth, 0, names);
    var step := DoObserve(rec, Some("r2"));
    var t := s.(pending := s.pending["r2" := s.pending["r2"].(auth := Some(auth))]);
    assert Pruned(s.pending, 5) == s.pending;
    assert Considered(s.pending, rec, related, true, 5) == {"r2"};
    assert BestOf(s.pending, rec, 5, {"r2"}, Some("r2"));
    assert ObserveStep(s, rec, related, 5, Some("r2"), t, "", true);
    ObserveCount(setup, s, step, 5, t, "p", 1);
    var f := CaptureUse("p", 1, "");
    SumEmpty(f);
    SumEmpty(HoldUse("p", 1));
    var empty: Pending := map[];
    SumUpdate(empty, f, "r1", busy);
    SumUpdate(empty["r1" := busy], f, "r2", free);
    assert s.pending == empty["r1" := busy]["r2" := free];
  }
}
