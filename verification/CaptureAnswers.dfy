// What the auth desk answers (internal/service/auth_capture.go, auth_concurrency.go), written out over
// captures, holds and clock: which capture a usage callback lands on, when an auth is full, and which
// auth is picked.
module CaptureAnswers {
  import opened Base
  import opened Sums
  import opened StableSort
  import opened RoundRobin
  import opened AuthCapture
  import opened AuthCaps

  // ---------- Usage callbacks ----------

  function Distance(a: int, b: int): int {
    if a < b then b - a else a - b
  }

  // The captures that could still use the record: not older than 15 minutes, without usage where the
  // record has some or without an auth where it names one.
  ghost function Lacking(s: State, rec: Record, now: int): set<Id> {
    set id | id in s.pending && now - s.pending[id].startedAt <= 900_000
             && ((s.pending[id].usage == None && rec.usage > 0)
                 || (s.pending[id].auth == None && (rec.auth.id != 0 || rec.auth.named)))
  }

  // Among them those of the same model decide; without one a single capture, and among several those
  // that started within 45 seconds of the request, or of now when its time is unknown.
  ghost function Pool(s: State, rec: Record, related: Matcher, now: int): set<Id> {
    var lacking := Lacking(s, rec, now);
    var same := set id | id in lacking && related(s.pending[id].models, rec.models);
    var at := if rec.requestedAt.Some? then rec.requestedAt.value else now;
    if same != {} then same
    else if |lacking| == 1 then lacking
    else set id | id in lacking && Distance(s.pending[id].startedAt, at) <= 45_000
  }

  // c is at least as good a match as d: closer to the request, or as close and no later; without a
  // request time simply no later.
  predicate AtLeastAsClose(c: Capture, d: Capture, requestedAt: Option<int>) {
    match requestedAt
    case None => c.startedAt <= d.startedAt
    case Some(t) =>
      || Distance(c.startedAt, t) < Distance(d.startedAt, t)
      || (Distance(c.startedAt, t) == Distance(d.startedAt, t) && c.startedAt <= d.startedAt)
  }

  lemma LackingIsEligible(s: State, rec: Record, related: Matcher, now: int)
    ensures var pending := Pruned(s.pending, now);
            && Eligible(pending, rec, related, false) == Lacking(s, rec, now)
            && Eligible(pending, rec, related, true)
               == set id | id in Lacking(s, rec, now) && related(s.pending[id].models, rec.models)
  {
  }

  lemma PoolIsConsidered(s: State, rec: Record, related: Matcher, now: int)
    ensures var pending := Pruned(s.pending, now);
            Pool(s, rec, related, now)
            == if Considered(pending, rec, related, true, now) != {} then Considered(pending, rec, related, true, now)
               else Considered(pending, rec, related, false, now)
  {
    var pending, lacking := Pruned(s.pending, now), Lacking(s, rec, now);
    LackingIsEligible(s, rec, related, now);
    var at := if rec.requestedAt.Some? then rec.requestedAt.value else now;
    forall id | id in lacking ensures Delta(pending[id], rec, now) == Distance(s.pending[id].startedAt, at) {
    }
  }

  lemma BetterIsCloser(c: Capture, d: Capture, rec: Record, now: int)
    ensures !Better(d, c, rec, now) <==> AtLeastAsClose(c, d, rec.requestedAt)
  {
  }

  // A callback lands on a capture exactly when some capture is considered, and then on one that no
  // considered capture is closer than.
  lemma CallbackLandsOnClosest(s: State, rec: Record, related: Matcher, now: int, best: Option<Id>, t: State,
                               ledgerId: Id, ok: bool)
    requires ObserveStep(s, rec, related, now, best, t, ledgerId, ok)
    ensures best.None? <==> rec.models == {} || Pool(s, rec, related, now) == {}
    ensures best.Some? ==>
              && best.value in Pool(s, rec, related, now) && best.value in s.pending
              && forall x | x in Pool(s, rec, related, now) ::
                   AtLeastAsClose(s.pending[best.value], s.pending[x], rec.requestedAt)
  {
    if rec.models != {} {
      PoolIsConsidered(s, rec, related, now);
      if best.Some? {
        var pending := Pruned(s.pending, now);
        forall x | x in Pool(s, rec, related, now)
          ensures AtLeastAsClose(s.pending[best.value], s.pending[x], rec.requestedAt)
        {
          assert x in Lacking(s, rec, now) && !Better(pending[x], pending[best.value], rec, now);
          BetterIsCloser(s.pending[best.value], s.pending[x], rec, now);
        }
      }
    }
  }

  // What the callback does to the capture: it fills what is missing and nothing else. The ledger id
  // is handed out when the row exists, and a capture that is complete by then is dropped.
  lemma CallbackFills(s: State, rec: Record, related: Matcher, now: int, best: Option<Id>, t: State, ledgerId: Id,
                      ok: bool)
    requires ObserveStep(s, rec, related, now, best, t, ledgerId, ok)
    ensures ok <==> best.Some?
    ensures t.holds == s.holds && t.affinity == s.affinity && t.lasts == s.lasts
    ensures rec.models == {} ==> t.pending == s.pending
    ensures best.None? ==> ledgerId == ""
    ensures best.Some? ==>
              && best.value in s.pending
              && var c := s.pending[best.value];
                 var auth := if c.auth.None? && (rec.auth.id != 0 || rec.auth.named) then Some(rec.auth) else c.auth;
                 var usage := if c.usage.None? && rec.usage > 0 then Some(rec.usage) else c.usage;
                 && ledgerId == c.ledgerId
                 && (best.value in t.pending <==> c.ledgerId == "" || auth == None || usage == None)
                 && (best.value in t.pending ==>
                       t.pending[best.value] == Capture(c.models, c.startedAt, c.active, c.ledgerId, auth, usage))
    ensures rec.models != {} ==> forall id | best != Some(id) ::
              (id in t.pending <==> id in s.pending && now - s.pending[id].startedAt <= 900_000)
              && (id in t.pending ==> t.pending[id] == s.pending[id])
  {
  }

  // The settlement hears what a callback filled in.
  lemma SettlementHearsCallback(s: State, rec: Record, related: Matcher, now: int, best: Id, t: State, ledgerId: Id,
                                ok: bool)
    requires ObserveStep(s, rec, related, now, Some(best), t, ledgerId, ok) && best in t.pending && rec.usage > 0
    ensures best in s.pending
    ensures CapturedUsage(Pruned(t.pending, now), best)
         == Some(if s.pending[best].usage.Some? then s.pending[best].usage.value else rec.usage)
  {
    CallbackFills(s, rec, related, now, Some(best), t, ledgerId, ok);
  }

  // ---------- When an auth is full ----------

  // The other requests in flight on an auth, and the warmups that hold it.
  ghost function Others(s: State, provider: string, id: AuthId, except: Id): set<Id> {
    set x | x in s.pending && x != except && s.pending[x].active && s.pending[x].auth.Some?
            && s.pending[x].auth.value.id == id && s.pending[x].auth.value.provider == provider
  }

  ghost function Warming(s: State, provider: string, id: AuthId): set<Id> {
    set run | run in s.holds && s.holds[run].id == id && s.holds[run].provider == provider
  }

  // A limit of 0 and a missing one are no limit.
  ghost predicate Full(s: State, limits: Limits, provider: string, id: AuthId, except: Id) {
    && (provider, id) in limits && limits[(provider, id)] > 0
    && |Others(s, provider, id, except)| + |Warming(s, provider, id)| >= limits[(provider, id)]
  }

  lemma InUseCounts(s: State, provider: string, id: AuthId, except: Id)
    requires provider != "" && id != 0
    ensures InUse(s, provider, id, except) == |Others(s, provider, id, except)| + |Warming(s, provider, id)|
  {
    SumCounts(s.pending, CaptureUse(provider, id, except), Others(s, provider, id, except));
    SumCounts(s.holds, HoldUse(provider, id), Warming(s, provider, id));
  }

  // An auth without a known name is never refused; any other exactly when it is full.
  lemma AdmissionAnswers(limits: Limits, s: State, id: Id, auth: Auth)
    requires id != "" && (auth.id != 0 || auth.named)
    ensures var (t, ok) := Admit(limits, s, id, auth);
            && (ok <==> auth.provider == "" || auth.id == 0 || !Full(s, limits, auth.provider, auth.id, id))
            && t == if ok && id in s.pending
                    then s.(pending := s.pending[id := s.pending[id].(auth := Some(auth))]) else s
  {
    if auth.provider != "" && auth.id != 0 {
      InUseCounts(s, auth.provider, auth.id, id);
    }
  }

  // Whether the scheduler may pick a candidate: it has a name, is not disabled, no warmup holds it and
  // it is not full. A candidate without a provider has no limit, and any hold on its name keeps it out.
  lemma UsableAnswers(s: State, limits: Limits, c: Candidate)
    ensures c.provider != "" ==>
              (Usable(s, limits, c) <==>
                 c.id != 0 && !c.disabled && Warming(s, c.provider, c.id) == {}
                 && !Full(s, limits, c.provider, c.id, ""))
    ensures c.provider == "" ==>
              (Usable(s, limits, c) <==>
                 c.id != 0 && !c.disabled && forall run | run in s.holds :: s.holds[run].id != c.id)
  {
    if c.id != 0 {
      if c.provider != "" {
        InUseCounts(s, c.provider, c.id, "");
      }
      if run :| run in s.holds && SameAuth(s.holds[run], c.provider, c.id) {
        assert c.provider != "" ==> run in Warming(s, c.provider, c.id);
      } else {
        assert forall run | run in s.holds :: !SameAuth(s.holds[run], c.provider, c.id);
      }
    }
  }

  // A warmup takes an auth only when nothing holds or uses it.
  lemma WarmupAnswers(s: State, run: Id, auth: Auth)
    requires run != "" && auth.provider != "" && auth.id != 0
    ensures var (t, ok) := AcquireWarmup(s, run, auth);
            && (ok <==> Others(s, auth.provider, auth.id, "") == {} && Warming(s, auth.provider, auth.id) == {})
            && t == if ok then s.(holds := s.holds[run := auth]) else s
  {
    InUseCounts(s, auth.provider, auth.id, "");
    if x :| x in s.holds && SameAuth(s.holds[x], auth.provider, auth.id) {
      assert x in Warming(s, auth.provider, auth.id);
    }
  }

  // ---------- Which auth is picked ----------

  // c may be picked, and no candidate that may be picked has a higher priority.
  ghost predicate Top(s: State, limits: Limits, candidates: seq<Candidate>, c: Candidate) {
    && c in candidates && Usable(s, limits, c)
    && forall d | d in candidates && Usable(s, limits, d) :: d.priority <= c.priority
  }

  lemma TierIsTop(s: State, limits: Limits, candidates: seq<Candidate>)
    requires SortedAvailable(s, limits, candidates) != []
    ensures var tier := Tier(SortedAvailable(s, limits, candidates));
            && tier != [] && SortedById(tier) && forall c :: c in tier <==> Top(s, limits, candidates, c)
  {
    var available := SortedAvailable(s, limits, candidates);
    SortedAvailableProperties(s, limits, candidates);
    TierProperties(available);
    forall c ensures c in Tier(available) <==> Top(s, limits, candidates, c) {
      assert c in Tier(available) <==> c in available && forall d | d in available :: d.priority <= c.priority;
    }
  }

  // No candidates, nobody usable, or a pick.
  lemma PickAnswers(s: State, limits: Limits, req: PickRequest, candidates: seq<Candidate>, now: int, t: State,
                    r: PickResult)
    requires PickStep(s, limits, req, candidates, now, t, r)
    ensures r == Unhandled <==> candidates == []
    ensures r == AuthCapture.Full <==> candidates != [] && forall c | c in candidates :: !Usable(s, limits, c)
  {
    SortedAvailableProperties(s, limits, candidates);
    var available := SortedAvailable(s, limits, candidates);
    if available != [] {
      assert available[0] in available;
    }
  }

  // c comes first in the order of the names among the top candidates.
  ghost predicate FirstTop(s: State, limits: Limits, candidates: seq<Candidate>, c: Candidate) {
    Top(s, limits, candidates, c) && forall d | Top(s, limits, candidates, d) :: c.id <= d.id
  }

  lemma TierHeadIsFirst(s: State, limits: Limits, candidates: seq<Candidate>)
    requires SortedAvailable(s, limits, candidates) != []
    ensures Tier(SortedAvailable(s, limits, candidates)) != []
    ensures FirstTop(s, limits, candidates, Tier(SortedAvailable(s, limits, candidates))[0])
  {
    TierIsTop(s, limits, candidates);
    var tier := Tier(SortedAvailable(s, limits, candidates));
    assert tier[0] in tier;
    forall d | Top(s, limits, candidates, d) ensures tier[0].id <= d.id {
      assert d in tier;
    }
  }

  // Without a session, fill-first picks the first top candidate.
  lemma FillFirstPicksFirst(s: State, limits: Limits, req: PickRequest, candidates: seq<Candidate>, now: int, t: State,
                            r: PickResult)
    requires PickStep(s, limits, req, candidates, now, t, r) && r.Picked? && !req.sticky && req.strategy == FillFirst
    ensures exists c :: FirstTop(s, limits, candidates, c) && r == Picked(c.provider, c.id)
    ensures t.lasts == s.lasts && t.affinity == s.affinity
  {
    TierHeadIsFirst(s, limits, candidates);
  }

  ghost function Load(s: State, c: Candidate): int {
    |Others(s, c.provider, c.id, "")| + |Warming(s, c.provider, c.id)|
  }

  // Without a session, least-busy picks the first name among the top candidates with the least load.
  lemma {:induction false} LeastBusyIsFirst(s: State, tier: seq<Candidate>)
    requires tier != [] && SortedById(tier)
    ensures var b := LeastBusyOf(s, tier);
            && b in tier
            && forall c | c in tier :: InUse(s, b.provider, b.id, "") < InUse(s, c.provider, c.id, "")
                 || (InUse(s, b.provider, b.id, "") == InUse(s, c.provider, c.id, "") && b.id <= c.id)
  {
    var n := |tier| - 1;
    if n > 0 {
      LeastBusyIsFirst(s, tier[..n]);
      assert forall c :: c in tier <==> c == tier[n] || c in tier[..n];
    }
  }

  lemma LeastLoadInTier(s: State, tier: seq<Candidate>)
    requires tier != [] && SortedById(tier) && forall c | c in tier :: c.provider != "" && c.id != 0
    ensures var b := LeastBusyOf(s, tier);
            b in tier && forall c | c in tier :: Load(s, b) < Load(s, c) || (Load(s, b) == Load(s, c) && b.id <= c.id)
  {
    LeastBusyIsFirst(s, tier);
    forall c | c in tier ensures InUse(s, c.provider, c.id, "") == Load(s, c) {
      InUseCounts(s, c.provider, c.id, "");
    }
  }

  lemma LeastBusyPicksLeast(s: State, limits: Limits, req: PickRequest, candidates: seq<Candidate>, now: int, t: State,
                            r: PickResult)
    requires PickStep(s, limits, req, candidates, now, t, r) && r.Picked? && !req.sticky && req.strategy == LeastBusy
    requires forall c | c in candidates :: c.provider != ""
    ensures exists c :: Top(s, limits, candidates, c) && r == Picked(c.provider, c.id)
                        && forall d | Top(s, limits, candidates, d) ::
                             Load(s, c) < Load(s, d) || (Load(s, c) == Load(s, d) && c.id <= d.id)
    ensures t.lasts == s.lasts && t.affinity == s.affinity
  {
    TierIsTop(s, limits, candidates);
    var tier := Tier(SortedAvailable(s, limits, candidates));
    LeastLoadInTier(s, tier);
    assert Top(s, limits, candidates, LeastBusyOf(s, tier));
  }

  // ---------- Sessions ----------

  // The binding of a key is live and the auth it names may be picked.
  ghost predicate Holds(s: State, limits: Limits, candidates: seq<Candidate>, key: AffinityKey, now: int) {
    && key in s.affinity && now < s.affinity[key].expires
    && exists c | c in candidates && Usable(s, limits, c) :: c.id == s.affinity[key].id
  }

  lemma BoundHolds(s: State, limits: Limits, candidates: seq<Candidate>, key: AffinityKey, now: int)
    ensures var available := SortedAvailable(s, limits, candidates);
            var bound := AuthCapture.Bound(s.affinity, Some(key), available, now);
            && (bound.Some? <==> Holds(s, limits, candidates, key, now))
            && (bound.Some? ==> bound.value.id == s.affinity[key].id)
  {
    SortedAvailableProperties(s, limits, candidates);
    if key in s.affinity {
      FirstWithIsMember(SortedAvailable(s, limits, candidates), s.affinity[key].id);
    }
  }

  // Whose auth a session request gets: that of its primary key's binding while it holds, else that of
  // its fallback key's, else one of the top candidates. A request with one key alone uses it as the
  // primary. Keys belong to the provider of the first candidate that may be picked.
  lemma SessionDecides(s: State, limits: Limits, req: PickRequest, candidates: seq<Candidate>, now: int, t: State,
                       r: PickResult)
    requires PickStep(s, limits, req, candidates, now, t, r) && r.Picked? && req.sticky
    ensures SortedAvailable(s, limits, candidates) != []
    ensures var provider := SortedAvailable(s, limits, candidates)[0].provider;
            var one := AffinityKey(provider, if req.primary == "" then req.fallback else req.primary, req.model);
            var two := AffinityKey(provider, req.fallback, req.model);
            var first := (req.primary != "" || req.fallback != "") && Holds(s, limits, candidates, one, now);
            var second := req.primary != "" && req.fallback != "" && req.fallback != req.primary
                          && Holds(s, limits, candidates, two, now);
            && (first ==> r.id == s.affinity[one].id)
            && (!first && second ==> r.id == s.affinity[two].id)
            && (!first && !second ==> exists c :: Top(s, limits, candidates, c) && r == Picked(c.provider, c.id))
  {
    var available := SortedAvailable(s, limits, candidates);
    var provider := available[0].provider;
    BoundHolds(s, limits, candidates, AffinityKey(provider, req.primary, req.model), now);
    BoundHolds(s, limits, candidates, AffinityKey(provider, req.fallback, req.model), now);
    ChosenIsAvailable(s, limits, req, available, now);
    TierIsTop(s, limits, candidates);
    var chosen := Choose(s, limits, req, available, now).0;
    assert (forall c | c in available :: c.priority <= chosen.priority) ==> Top(s, limits, candidates, chosen) by {
      SortedAvailableProperties(s, limits, candidates);
    }
  }

  // The choice after `last` in the order of the names: the first top candidate after it, else the first.
  ghost predicate NextAfter(s: State, limits: Limits, candidates: seq<Candidate>, last: AuthId, id: AuthId) {
    if exists d :: Top(s, limits, candidates, d) && d.id > last then
      id > last && forall d | Top(s, limits, candidates, d) && d.id > last :: id <= d.id
    else forall d | Top(s, limits, candidates, d) :: id <= d.id
  }

  lemma IdsAreIds(tier: seq<Candidate>)
    ensures forall c | c in tier :: c.id in Ids(tier)
    ensures forall id | id in Ids(tier) :: exists c :: c in tier && c.id == id
  {
    forall c | c in tier ensures c.id in Ids(tier) {
      var i :| 0 <= i < |tier| && tier[i] == c;
      assert Ids(tier)[i] == c.id;
    }
    forall id | id in Ids(tier) ensures exists c :: c in tier && c.id == id {
      var i :| 0 <= i < |tier| && Ids(tier)[i] == id;
      assert tier[i] in tier && tier[i].id == id;
    }
  }

  lemma NextIsAfter(s: State, limits: Limits, candidates: seq<Candidate>, tier: seq<Candidate>, last: AuthId,
                    id: AuthId)
    requires (forall c :: c in tier <==> Top(s, limits, candidates, c)) && IsNext(Ids(tier), last, id)
    ensures NextAfter(s, limits, candidates, last, id)
  {
    IdsAreIds(tier);
    if d :| Top(s, limits, candidates, d) && d.id > last {
      assert d in tier && d.id in Ids(tier);
    }
  }

  // Round robin goes on from the last pick under a provider and model, and remembers its own; a new
  // key at a table of 4096 wipes it.
  ghost predicate Rotates(s: State, limits: Limits, candidates: seq<Candidate>, key: string, after: Lasts, id: AuthId) {
    && NextAfter(s, limits, candidates, if key in s.lasts then s.lasts[key] else 0, id)
    && after == (if key in s.lasts || |s.lasts| < 4096 then s.lasts else map[])[key := id]
  }

  lemma RotationServes(s: State, limits: Limits, candidates: seq<Candidate>, tier: seq<Candidate>, key: string)
    requires tier != [] && (forall c :: c in tier <==> Top(s, limits, candidates, c))
    ensures var call := Call(key, Ids(tier));
            Rotates(s, limits, candidates, key, Serve(s.lasts, call), Next(call.ids, LastOf(s.lasts, key)))
  {
    NextIsAfter(s, limits, candidates, tier, LastOf(s.lasts, key), Next(Ids(tier), LastOf(s.lasts, key)));
  }

  // Without a session, round robin serves the key of the first top candidate's provider.
  lemma RotationAnswers(s: State, limits: Limits, req: PickRequest, candidates: seq<Candidate>, now: int, t: State,
                        r: PickResult)
    requires PickStep(s, limits, req, candidates, now, t, r) && r.Picked?
    requires !req.sticky && req.strategy == RoundRobinNext
    ensures exists c :: Top(s, limits, candidates, c) && c.id == r.id
    ensures exists d :: FirstTop(s, limits, candidates, d)
                        && Rotates(s, limits, candidates, d.provider + ":" + req.model, t.lasts, r.id)
  {
    PickRotates(s, limits, req, candidates, now, t, r);
    TierIsTop(s, limits, candidates);
    TierHeadIsFirst(s, limits, candidates);
    var tier := Tier(SortedAvailable(s, limits, candidates));
    OfferedIsFound(tier, r.id);
    RotationServes(s, limits, candidates, tier, tier[0].provider + ":" + req.model);
  }

  // One binding: the key now names the auth; a table that is full for a new key first loses what has
  // expired, and everything if that is not enough.
  lemma BindingAnswers(affinity: Affinity, key: AffinityKey, c: Candidate, expires: int, now: int)
    ensures var after := BindAffinity(affinity, Some(key), c, expires, now);
            var live := map k | k in affinity && affinity[k].expires >= now :: affinity[k];
            after == (if key in affinity || |affinity| < 65_536 then affinity
                      else if |live| < 65_536 then live
                      else map[])[key := Binding(c.id, c.provider, expires)]
  {
    var live := map k | k in affinity && affinity[k].expires >= now :: affinity[k];
    assert live == map k | k in affinity && now <= affinity[k].expires :: affinity[k];
  }

  // Binding one or two keys of a table with room changes no other binding.
  lemma RoomForBoth(affinity: Affinity, one: Option<AffinityKey>, two: Option<AffinityKey>, c: Candidate, expires: int,
                    now: int)
    requires |affinity| + 1 < 65_536
    ensures var bound := Binding(c.id, c.provider, expires);
            var after := BindAffinity(BindAffinity(affinity, one, c, expires, now), two, c, expires, now);
            && (one.Some? ==> one.value in after && after[one.value] == bound)
            && (two.Some? ==> two.value in after && after[two.value] == bound)
            && forall k | one != Some(k) && two != Some(k) ::
                 (k in after <==> k in affinity) && (k in affinity ==> after[k] == affinity[k])
  {
    var once := BindAffinity(affinity, one, c, expires, now);
    if one.Some? {
      BindingAnswers(affinity, one.value, c, expires, now);
    }
    assert |once| <= |affinity| + 1;
    if two.Some? {
      BindingAnswers(once, two.value, c, expires, now);
    }
  }

  // After a pick both session keys name the picked auth until the idle time runs out, and no other
  // binding has changed, while the table has room.
  lemma SessionIsBound(s: State, limits: Limits, req: PickRequest, candidates: seq<Candidate>, now: int, t: State,
                       r: PickResult)
    requires PickStep(s, limits, req, candidates, now, t, r) && r.Picked? && req.sticky && |s.affinity| + 1 < 65_536
    ensures SortedAvailable(s, limits, candidates) != []
    ensures var provider := SortedAvailable(s, limits, candidates)[0].provider;
            var one := AffinityKey(provider, if req.primary == "" then req.fallback else req.primary, req.model);
            var two := AffinityKey(provider, req.fallback, req.model);
            var bound := Binding(r.id, r.provider, now + req.ttl);
            && (req.primary != "" || req.fallback != "" ==> one in t.affinity && t.affinity[one] == bound)
            && (req.primary != "" && req.fallback != "" ==> two in t.affinity && t.affinity[two] == bound)
            && forall k | k != one && k != two ::
                 (k in t.affinity <==> k in s.affinity) && (k in s.affinity ==> t.affinity[k] == s.affinity[k])
  {
    var provider := SortedAvailable(s, limits, candidates)[0].provider;
    var keys := SessionKeys(req, provider);
    var c := Choose(s, limits, req, SortedAvailable(s, limits, candidates), now).0;
    RoomForBoth(s.affinity, keys.0, keys.1, c, now + req.ttl, now);
  }

  // A request without a session, or without any session key, binds nothing.
  lemma NoSessionBindsNothing(s: State, limits: Limits, req: PickRequest, candidates: seq<Candidate>, now: int,
                              t: State, r: PickResult)
    requires PickStep(s, limits, req, candidates, now, t, r)
    requires !req.sticky || (req.primary == "" && req.fallback == "") || !r.Picked?
    ensures t.affinity == s.affinity
  {
  }
}
