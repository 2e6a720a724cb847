// The service's in-memory auth state as one object (internal/service/auth_concurrency.go,
// auth_capture.go, auth_warmup.go). Each method is one section under the mutex, loops included, and
// is proved to be the step of module AuthCapture.
module AuthDesk {
  import opened Base
  import opened Sums
  import opened StableSort
  import opened RoundRobin
  import opened AuthCapture
  import opened AuthCaps

  class AuthDesk {
    var pending: Pending
    var holds: Holds
    var affinity: Affinity
    var lasts: Lasts

    function View(): State
      reads this
    {
      State(pending, holds, affinity, lasts)
    }

    constructor ()
      ensures View() == EMPTY
    {
      pending, holds, affinity, lasts := map[], map[], map[], map[];
    }

    // activeAuthRequestsLocked
    method ActiveAuthRequests(provider: string, id: AuthId, except: Id) returns (n: int)
      ensures n == InUse(View(), provider, id, except)
    {
      if id == 0 {
        return 0;
      }
      var captures := SumRows(pending, CaptureUse(provider, id, except));
      var warmups := SumRows(holds, HoldUse(provider, id));
      n := captures + warmups;
    }

    method TrackAuthCapture(id: Id, models: seq<string>, now: int)
      modifies this`pending
      ensures View() == Track(old(View()), id, models, now)
    {
      if id == "" || |models| == 0 {
        return;
      }
      pending := Pruned(pending, now);
      pending := pending[id := Capture(models, now, true, "", None, None)];
    }

    method BindAuthCapture(id: Id, auth: Auth)
      modifies this`pending
      ensures View() == BindCapture(old(View()), id, auth)
    {
      if id != "" && !auth.Empty() && id in pending {
        pending := pending[id := pending[id].(auth := Some(auth))];
      }
    }

    method AdmitAuth(limits: Limits, id: Id, auth: Auth) returns (ok: bool)
      modifies this`pending
      ensures (View(), ok) == Admit(limits, old(View()), id, auth)
    {
      if id == "" || auth.Empty() {
        return true;
      }
      if auth.provider == "" || auth.id == 0 {
        BindAuthCapture(id, auth);
        return true;
      }
      var limit := LimitOf(limits, auth.provider, auth.id);
      if limit > 0 {
        var active := ActiveAuthRequests(auth.provider, auth.id, id);
        if active >= limit {
          return false;
        }
      }
      BindAuthCapture(id, auth);
      ok := true;
    }

    method IsUsable(limits: Limits, c: Candidate) returns (usable: bool)
      ensures usable == Usable(View(), limits, c)
    {
      if c.id == 0 || c.disabled {
        return false;
      }
      if WarmupBusy(holds, c.provider, c.id) {
        return false;
      }
      var limit := LimitOf(limits, c.provider, c.id);
      if limit > 0 && c.provider != "" {
        var active := ActiveAuthRequests(c.provider, c.id, "");
        if active >= limit {
          return false;
        }
      }
      usable := true;
    }

    method ListAvailable(limits: Limits, candidates: seq<Candidate>) returns (available: seq<Candidate>)
      ensures available == Available(View(), limits, candidates)
    {
      available := [];
      for i := 0 to |candidates|
        invariant available == Available(View(), limits, candidates[..i])
      {
        assert candidates[..i + 1][..i] == candidates[..i];
        var usable := IsUsable(limits, candidates[i]);
        if usable {
          available := available + [candidates[i]];
        }
      }
      assert candidates[..|candidates|] == candidates;
    }

    method PickLeastBusy(tier: seq<Candidate>) returns (chosen: Candidate)
      requires tier != []
      ensures chosen == LeastBusyOf(View(), tier)
    {
      chosen := tier[0];
      var best := ActiveAuthRequests(chosen.provider, chosen.id, "");
      for i := 1 to |tier|
        invariant chosen == LeastBusyOf(View(), tier[..i]) && best == InUse(View(), chosen.provider, chosen.id, "")
      {
        assert tier[..i + 1][..i] == tier[..i];
        var n := ActiveAuthRequests(tier[i].provider, tier[i].id, "");
        if n < best {
          chosen, best := tier[i], n;
        }
      }
      assert tier[..|tier|] == tier;
    }

    // bindOldestUnattributedLocked
    method BindOldestUnattributed(auth: Auth)
      requires !auth.Empty()
      modifies this`pending
      ensures PickBinds(old(pending), "", auth, pending)
    {
      var oldest: Option<Id> := None;
      var todo := pending;
      while todo.Keys != {}
        invariant todo.Keys <= pending.Keys && forall id | id in todo :: todo[id] == pending[id]
        invariant oldest.Some? ==> Unattributed(pending, oldest.value)
        invariant forall id | Unattributed(pending, id) && id !in todo ::
                  oldest.Some? && pending[oldest.value].startedAt <= pending[id].startedAt
        decreases todo.Keys
      {
        var id :| id in todo;
        if todo[id].active && todo[id].auth.None?
          && (oldest.None? || todo[id].startedAt < pending[oldest.value].startedAt) {
          oldest := Some(id);
        }
        todo := todo - {id};
      }
      if oldest.None? {
        return;
      }
      assert Oldest(pending, oldest.value);
      pending := pending[oldest.value := pending[oldest.value].(auth := Some(auth))];
    }

    // bindPickLocked
    method BindPick(reservation: Id, auth: Auth)
      modifies this`pending
      ensures PickBinds(old(pending), reservation, auth, pending)
    {
      if auth.Empty() {
        return;
      }
      if reservation != "" {
        if reservation in pending && pending[reservation].active {
          pending := pending[reservation := pending[reservation].(auth := Some(auth))];
        }
        return;
      }
      BindOldestUnattributed(auth);
    }

    // The base strategy over the highest tier.
    method ChooseBase(req: PickRequest, available: seq<Candidate>) returns (chosen: Candidate)
      requires available != [] && forall c | c in available :: c.id > 0
      requires SortedById(available)
      modifies this`lasts
      ensures Tier(available) != []
      ensures chosen == ChosenOf(old(View()), req, Tier(available))
      ensures var call := Call(CursorKey(Tier(available)[0].provider, req.model), Ids(Tier(available)));
              lasts == if req.strategy.RoundRobinNext? then Serve(old(lasts), call) else old(lasts)
    {
      TierProperties(available);
      var tier := HighestTier(available);
      match req.strategy {
        case FillFirst => chosen := tier[0];
        case LeastBusy => chosen := PickLeastBusy(tier);
        case RoundRobinNext =>
          assert forall i | 0 <= i < |tier| :: Ids(tier)[i] == tier[i].id && tier[i] in tier;
          chosen, lasts := NextAuthPick(lasts, CursorKey(tier[0].provider, req.model), tier);
      }
    }

    // The session's bound candidate or the base strategy's, and the new session bindings.
    method Decide(limits: Limits, req: PickRequest, available: seq<Candidate>, now: int) returns (chosen: Candidate)
      requires available != [] && SortedById(available) && forall c | c in available :: c.id > 0
      modifies this`affinity, this`lasts
      ensures (chosen, affinity, lasts) == Choose(old(View()), limits, req, available, now)
    {
      var keys := SessionKeys(req, available[0].provider);
      var bound := BoundEither(affinity, keys, available, now);
      if bound.Some? {
        chosen := bound.value;
      } else {
        chosen := ChooseBase(req, available);
      }
      affinity := BindAffinity(affinity, keys.0, chosen, now + req.ttl, now);
      affinity := BindAffinity(affinity, keys.1, chosen, now + req.ttl, now);
    }

    method PickAuthForRequest(limits: Limits, req: PickRequest, candidates: seq<Candidate>, now: int)
      returns (r: PickResult)
      modifies this
      ensures PickStep(old(View()), limits, req, candidates, now, View(), r)
    {
      if |candidates| == 0 {
        return Unhandled;
      }
      var raw := ListAvailable(limits, candidates);
      var available := Sorted(raw, ById());
      if |available| == 0 {
        return Full;
      }
      SortedAvailableProperties(View(), limits, candidates);
      var chosen := Decide(limits, req, available, now);
      BindPick(req.reservation, Auth(chosen.provider, chosen.id, false));
      r := Picked(chosen.provider, chosen.id);
    }

    method FinishAuthCapture(id: Id)
      modifies this`pending
      ensures View() == Finish(old(View()), id)
    {
      if id != "" && id in pending {
        pending := pending[id := pending[id].(active := false)];
      }
    }

    method CancelAuthCapture(id: Id)
      modifies this`pending
      ensures View() == Cancel(old(View()), id)
    {
      if id != "" {
        pending := pending - {id};
      }
    }

    method SettlementAuth(id: Id, ledgerId: Id, now: int) returns (auth: Option<Auth>)
      modifies this`pending
      ensures (View(), auth) == AuthForSettlement(old(View()), id, ledgerId, now)
    {
      if id == "" {
        return None;
      }
      pending := Pruned(pending, now);
      if id !in pending {
        return None;
      }
      var c := pending[id];
      assert pending[id := c] == pending;
      if c.auth.Some? {
        if c.usage.Some? {
          pending := pending - {id};
        } else if ledgerId != "" {
          pending := pending[id := c.(ledgerId := ledgerId)];
        }
        return c.auth;
      }
      if ledgerId != "" {
        pending := pending[id := c.(ledgerId := ledgerId)];
      }
      auth := None;
    }

    method CapturedHostUsage(id: Id, now: int) returns (usage: Option<Usage>)
      modifies this`pending
      ensures View() == old(View()).(pending := Pruned(old(pending), now))
      ensures usage == CapturedUsage(Pruned(old(pending), now), id)
    {
      pending := Pruned(pending, now);
      usage := CapturedUsage(pending, id);
    }

    // The end of settleMissingUsage: the row exists, so a capture is complete or carries its id.
    method PublishSettled(id: Id, ledgerId: Id)
      modifies this`pending
      ensures View() == old(View()).(pending :=
                if id in old(pending) then Store(old(pending), id, AfterMissing(old(pending)[id], ledgerId))
                else old(pending))
    {
      if id in pending {
        var c := pending[id];
        if c.usage.Some? && c.auth.Some? {
          pending := pending - {id};
        } else {
          pending := pending[id := c.(ledgerId := ledgerId)];
        }
      }
    }

    // pickPendingAuthLocked: one pass over the captures.
    method PickPending(rec: Record, related: Matcher, strict: bool, now: int) returns (best: Option<Id>)
      ensures BestOf(pending, rec, now, Considered(pending, rec, related, strict, now), best)
    {
      var eligible := Eligible(pending, rec, related, strict);
      if !strict && |eligible| == 1 {
        var id :| id in eligible;
        OnlyMember(eligible, id);
        return Some(id);
      }
      best := None;
      var todo := eligible;
      ghost var seen: set<Id> := {};
      while todo != {}
        invariant todo <= eligible && seen == (eligible - todo) * Considered(pending, rec, related, strict, now)
        invariant BestOf(pending, rec, now, seen, best)
        decreases todo
      {
        var id :| id in todo;
        var near := strict || Delta(pending[id], rec, now) <= LOOSE_WINDOW;
        if near {
          if best.None? || Better(pending[id], pending[best.value], rec, now) {
            best := Some(id);
          }
          seen := seen + {id};
        }
        todo := todo - {id};
      }
      assert seen == Considered(pending, rec, related, strict, now);
    }

    method ObserveHostUsage(rec: Record, related: Matcher, now: int)
      returns (ledgerId: Id, ok: bool, ghost best: Option<Id>)
      modifies this`pending
      ensures ObserveStep(old(View()), rec, related, now, best, View(), ledgerId, ok)
    {
      best := None;
      if rec.models == {} {
        return "", false, None;
      }
      pending := Pruned(pending, now);
      var found := PickPending(rec, related, true, now);
      if found.None? {
        found := PickPending(rec, related, false, now);
      }
      if found.None? {
        return "", false, None;
      }
      best := found;
      var c := pending[found.value];
      if !rec.auth.Empty() && c.auth.None? {
        c := c.(auth := Some(rec.auth));
      }
      if c.usage.None? && rec.usage > 0 {
        c := c.(usage := Some(rec.usage));
      }
      pending := pending[found.value := c];
      if c.ledgerId == "" {
        return "", true, best;
      }
      if c.auth.Some? && c.usage.Some? {
        pending := pending - {found.value};
      }
      return c.ledgerId, true, best;
    }

    method AcquireAuthWarmup(run: Id, auth: Auth) returns (ok: bool)
      modifies this`holds
      ensures (View(), ok) == AcquireWarmup(old(View()), run, auth)
    {
      if run == "" || auth.Empty() || auth.provider == "" || auth.id == 0 {
        return false;
      }
      var active := ActiveAuthRequests(auth.provider, auth.id, "");
      if WarmupBusy(holds, auth.provider, auth.id) || active > 0 {
        return false;
      }
      holds := holds[run := auth];
      ok := true;
    }

    method ReleaseAuthWarmup(run: Id)
      modifies this`holds
      ensures View() == ReleaseWarmup(old(View()), run)
    {
      holds := holds - {run};
    }
  }

  lemma OnlyMember(s: set<Id>, id: Id)
    requires |s| == 1 && id in s
    ensures s == {id}
  {
    if s != {id} {
      var x :| x in s && x != id;
      SubsetSize({id, x}, s);
    }
  }
}
