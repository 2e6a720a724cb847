// What the quota history makes of its observations (internal/service/auth_quota_history.go), written
// out over their fields: which near duplicates are folded and how, which observations are placeholders
// and what becomes of them, what one observation alone leads to, and which windows are shown.
module HistoryAnswers {
  import opened Base
  import opened StableSort
  import opened QuotaObservations
  import opened QuotaHistory

  // ---------- Near duplicates ----------

  // Plan history outranks an exact start, which outranks an approximated one.
  predicate Outranks(a: Obs, b: Obs) {
    if a.source == PlanHistory then b.source != PlanHistory
    else b.source != PlanHistory && !a.fake && !a.approx && (b.fake || b.approx)
  }

  // The fold of two near duplicates keeps the interval of the higher rank, of the first on a tie. The
  // other one contributes a description where there is none, a higher use it saw later, and an earlier
  // first sighting with the use seen then; plan history takes neither, a repaired start no sighting.
  lemma FoldAnswers(a: Obs, b: Obs)
    ensures var keep, other := if Outranks(b, a) then b else a, if Outranks(b, a) then a else b;
            var later := other.lastSeen.Some? && (keep.lastSeen.None? || other.lastSeen.value > keep.lastSeen.value);
            var raised := other.used.Some? && keep.used.Some? && other.used.value > keep.used.value && later;
            var sighted := other.firstSeen.Some?
                           && (keep.firstSeen.None? || other.firstSeen.value < keep.firstSeen.value);
            var used := if keep.source != PlanHistory && (keep.used.None? || raised) then other.used else keep.used;
            var earlier := keep.source != PlanHistory && !keep.fake && sighted;
            Fold(a, b) == keep.(
              used := used,
              firstSeen := if earlier then other.firstSeen else keep.firstSeen,
              firstUsed := if earlier then other.firstUsed else keep.firstUsed,
              desc := if keep.desc == "" then other.desc else keep.desc)
  {
  }

  // Starts within two minutes are near.
  lemma PairMerges(a: Obs, b: Obs)
    requires a.start <= b.start
    ensures Merged([a, b]) == if b.start - a.start <= 120_000 then [Fold(a, b)] else [a, b]
  {
    var s := [a, b];
    assert s[..1] == [a] && [a][..0] == [];
    assert Sorted(s, StartOf) == InsertByKey(Sorted([a], StartOf), b, StartOf);
    assert Sorted([a], StartOf) == InsertByKey(Sorted([a][..0], StartOf), a, StartOf) == [a];
    assert Sorted(s, StartOf) == s;
    assert FoldAll([a]) == FoldInto(FoldAll([a][..0]), a) == [a];
    assert FoldAll(s) == FoldInto(FoldAll([a]), b);
  }

  // ---------- Placeholders ----------

  // A sync first saw the window unused, within two minutes of its start; the upstream shows such a
  // window while none is running.
  predicate NeverStarted(o: Obs) {
    && o.source != PlanHistory
    && o.firstSeen != None && -120_000 <= o.start - o.firstSeen.value <= 120_000
    && (o.firstUsed == None || o.firstUsed == Some(0.0))
  }

  // r is o from the first request on that lies between its sighting and the earlier of its schedule
  // and now.
  ghost predicate StartedBy(o: Obs, reqs: seq<int>, now: int, r: Obs) {
    && r.start in reqs && o.firstSeen.Some? && o.firstSeen.value <= r.start && r.start < o.sched && r.start < now
    && (forall t | t in reqs && o.firstSeen.value <= t :: r.start <= t)
    && r == Obs(r.start, r.start + o.dur, o.dur, o.used, o.firstUsed, o.firstSeen, o.lastSeen, o.desc,
                LedgerFirstRequest, true, true)
  }

  // What is kept, and the boundaries: ordinary observations as they are and without a boundary,
  // placeholders only as started by a request and always with their sighting as a boundary.
  lemma {:induction false} RepairAnswers(obs: seq<Obs>, now: int, probe: Option<seq<int>>)
    ensures forall r :: r in Repaired(obs, now, probe) <==>
              (r in obs && !NeverStarted(r))
              || (probe.Some? && exists o | o in obs :: NeverStarted(o) && StartedBy(o, probe.value, now, r))
    ensures forall b :: b in Boundaries(obs) <==> exists o | o in obs :: NeverStarted(o) && o.firstSeen == Some(b)
  {
    if obs != [] {
      var n := |obs| - 1;
      var o := obs[n];
      RepairAnswers(obs[..n], now, probe);
      assert forall x :: x in obs <==> x == o || x in obs[..n];
      RepairAnswersOne(o, now, probe);
    }
  }

  lemma RepairAnswersOne(o: Obs, now: int, probe: Option<seq<int>>)
    ensures Placeholder(o) == NeverStarted(o)
    ensures forall r :: Repair(o, now, probe) == Some(r) <==>
              (r == o && !NeverStarted(o)) || (probe.Some? && NeverStarted(o) && StartedBy(o, probe.value, now, r))
  {
    if NeverStarted(o) && probe.Some? {
      var first := Earliest(probe.value, o.firstSeen.value, Min(o.sched, now));
      forall r ensures Repair(o, now, probe) == Some(r) <==> StartedBy(o, probe.value, now, r) {
        if StartedBy(o, probe.value, now, r) {
          assert first.Some? && first.value == r.start;
        }
        if Repair(o, now, probe) == Some(r) {
          forall t | t in probe.value && o.firstSeen.value <= t ensures r.start <= t {
          }
        }
      }
    }
  }

  // ---------- One observation alone ----------

  function DurationOf(r: Raw): int {
    if r.durationSeconds > 0 then 1000 * r.durationSeconds else r.reset - r.start
  }

  predicate ReportsUnused(r: Raw) {
    && r.origin != PlanLimitHistory && r.firstSeen > 0 && -120_000 <= r.start - r.firstSeen <= 120_000
    && (r.firstUsed == None || r.firstUsed == Some(0.0))
  }

  lemma OneDecoded(r: Raw)
    ensures DecodeAll([r]) == if r.reset > r.start then [Decode(r)] else []
  {
    assert [r][..0] == [];
    assert DecodeAll([r][..0]) == [];
  }

  // The window of an observation that nothing follows, and the windows inferred after it.
  ghost function Alone(o: Obs, now: int, probe: Option<seq<int>>): seq<Window> {
    [Window(o.start, o.sched, o.sched, o.dur, o.used, o.desc, o.source, false, o.approx)]
    + InferGap(o.sched, Gap(now, o.dur, o.desc, now, false), probe)
  }

  lemma OneSegment(o: Obs, boundaries: seq<int>, now: int, probe: Option<seq<int>>)
    requires forall b | b in boundaries :: !(o.start < b < o.sched)
    ensures Join(Segments([o], boundaries, now, probe)) == Alone(o, now, probe)
  {
    var parts := Segments([o], boundaries, now, probe);
    assert parts[..0] == [];
    NoBoundaryInside(boundaries, o.start, o.sched);
    assert parts[0] == Segment([o], 0, boundaries, now, probe);
    assert Join(parts) == Join(parts[..0]) + parts[0] == parts[0];
  }

  lemma {:induction false} NoBoundaryInside(boundaries: seq<int>, start: int, end: int)
    requires forall b | b in boundaries :: !(start < b < end)
    ensures ClipEnd(boundaries, start, end) == end
  {
    if boundaries != [] {
      var n := |boundaries| - 1;
      assert boundaries[n] in boundaries && forall b | b in boundaries[..n] :: b in boundaries;
      NoBoundaryInside(boundaries[..n], start, end);
    }
  }

  lemma SettledOnOne(raw: seq<Raw>, o: Obs, boundaries: seq<int>, now: int, probe: Option<seq<int>>)
    requires Settled(raw, now, probe) == [o] && SyncBoundaries(raw) == boundaries
    requires forall b | b in boundaries :: !(o.start < b < o.sched)
    ensures History(raw, now, probe) == Alone(o, now, probe)
  {
    OneSegment(o, boundaries, now, probe);
  }

  lemma NoneMerged()
    ensures Merged([]) == [] && DecodeAll([]) == []
  {
    assert Sorted([], StartOf) == [];
  }

  lemma DecodedAlone(r: Raw, now: int, probe: Option<seq<int>>)
    ensures Alone(Decode(r), now, probe)
         == [Window(r.start, r.reset, r.reset, DurationOf(r), r.used, r.desc,
                    if r.origin == PlanLimitHistory then PlanHistory else Reported(r.origin.name), false, false)]
            + InferGap(r.reset, Gap(now, DurationOf(r), r.desc, now, false), probe)
  {
  }

  // An observation that was in use when first seen stands as reported, whatever was used later.
  lemma ReportedWindow(r: Raw, now: int, probe: Option<seq<int>>)
    requires r.reset > r.start && !ReportsUnused(r)
    ensures SyncBoundaries([r]) == []
    ensures History([r], now, probe)
         == [Window(r.start, r.reset, r.reset, DurationOf(r), r.used, r.desc,
                    if r.origin == PlanLimitHistory then PlanHistory else Reported(r.origin.name), false, false)]
            + InferGap(r.reset, Gap(now, DurationOf(r), r.desc, now, false), probe)
  {
    SingleSettled(r, now, probe);
    SettledOnOne([r], Decode(r), [], now, probe);
    DecodedAlone(r, now, probe);
  }

  lemma OnePlaceholder(r: Raw, now: int, probe: Option<seq<int>>)
    requires r.reset > r.start && ReportsUnused(r)
    ensures SyncBoundaries([r]) == [r.firstSeen]
    ensures var fixed := Repair(Decode(r), now, probe);
            Settled([r], now, probe) == if fixed.Some? then [fixed.value] else []
  {
    var o := Decode(r);
    OneDecoded(r);
    SingleMerged(o);
    assert [o][..0] == [];
    assert Repaired([o], now, probe)
        == Repaired([o][..0], now, probe) + (if Repair(o, now, probe).Some? then [Repair(o, now, probe).value] else []);
    assert Boundaries([o]) == Boundaries([o][..0]) + [r.firstSeen];
    if Repair(o, now, probe).Some? {
      SingleMerged(Repair(o, now, probe).value);
    } else {
      NoneMerged();
    }
  }

  // The sighting of an observation first seen unused near its start bounds the windows before it, and
  // without a request between the sighting, its reset and now there is no window.
  lemma UnusedWithoutRequest(r: Raw, now: int, probe: Option<seq<int>>)
    requires r.reset > r.start && ReportsUnused(r)
    requires probe.None? || forall t | t in probe.value :: !(r.firstSeen <= t < r.reset && t < now)
    ensures SyncBoundaries([r]) == [r.firstSeen] && History([r], now, probe) == []
  {
    OnePlaceholder(r, now, probe);
    assert Join(Segments([], SyncBoundaries([r]), now, probe)) == [];
  }

  function Moved(o: Obs, f: int): Obs {
    o.(start := f, sched := f + o.dur, approx := true, fake := true, source := LedgerFirstRequest)
  }

  lemma PlaceholderMoves(r: Raw, now: int, reqs: seq<int>, f: int)
    requires r.reset > r.start && ReportsUnused(r)
    requires f in reqs && r.firstSeen <= f < r.reset && f < now && forall t | t in reqs && r.firstSeen <= t :: f <= t
    ensures Settled([r], now, Some(reqs)) == [Moved(Decode(r), f)] && SyncBoundaries([r]) == [r.firstSeen]
  {
    OnePlaceholder(r, now, Some(reqs));
    assert Earliest(reqs, r.firstSeen, Min(r.reset, now)) == Some(f);
  }

  lemma MovedAlone(r: Raw, f: int, now: int, probe: Option<seq<int>>)
    ensures var d := DurationOf(r);
            Alone(Moved(Decode(r), f), now, probe)
            == [Window(f, f + d, f + d, d, r.used, r.desc, LedgerFirstRequest, false, true)]
               + InferGap(f + d, Gap(now, d, r.desc, now, false), probe)
  {
  }

  // The first such request f opens the window in its place.
  lemma UnusedUntilRequest(r: Raw, now: int, reqs: seq<int>, f: int)
    requires r.reset > r.start && ReportsUnused(r)
    requires f in reqs && r.firstSeen <= f < r.reset && f < now && forall t | t in reqs && r.firstSeen <= t :: f <= t
    ensures SyncBoundaries([r]) == [r.firstSeen]
    ensures var d := DurationOf(r);
            History([r], now, Some(reqs))
            == [Window(f, f + d, f + d, d, r.used, r.desc, LedgerFirstRequest, false, true)]
               + InferGap(f + d, Gap(now, d, r.desc, now, false), Some(reqs))
  {
    PlaceholderMoves(r, now, reqs, f);
    SettledOnOne([r], Moved(Decode(r), f), [r.firstSeen], now, Some(reqs));
    MovedAlone(r, f, now, Some(reqs));
  }

  // An observation that ends before it starts counts for nothing.
  lemma EmptyObservation(r: Raw, now: int, probe: Option<seq<int>>)
    requires r.reset <= r.start
    ensures History([r], now, probe) == []
  {
    OneDecoded(r);
    NoneMerged();
    assert Join(Segments([], SyncBoundaries([r]), now, probe)) == [];
  }

  // ---------- Which windows are shown ----------

  // The start of a current upstream window, where it is known: the cycle start if it precedes the
  // reset, else one duration before the reset.
  predicate CurrentStart(u: Upstream, start: int) {
    && u.resetsAt.Some?
    && if u.cycleStart.Some? && u.cycleStart.value < u.resetsAt.value then start == u.cycleStart.value
       else u.durationSeconds.Some? && u.durationSeconds.value > 0
            && start == u.resetsAt.value - 1000 * u.durationSeconds.value
  }

  // w is h up to the earliest of its end and the known current starts.
  ghost predicate CutBy(h: Window, current: seq<Upstream>, w: Window) {
    && w.end <= h.end && (forall u, c | u in current && CurrentStart(u, c) :: w.end <= c)
    && (w.end == h.end || exists u :: u in current && CurrentStart(u, w.end))
    && w == h.(end := w.end, earlyReset := w.earlyReset)
    && (w.earlyReset <==> h.earlyReset || w.end < h.end)
  }

  lemma StartsAgree(u: Upstream, c: int)
    ensures CurrentStart(u, c) <==> BoundsStart(u) == Some(c)
  {
  }

  lemma ClippedIsCut(current: seq<Upstream>, h: Window)
    requires h.end <= h.scheduled
    ensures CutBy(h, current, ClipToCurrent(current, h))
  {
    ClipToCurrentProperties(current, h);
    ClipReason(current, h);
    var w := ClipToCurrent(current, h);
    forall u, c | u in current && CurrentStart(u, c) ensures w.end <= c {
      StartsAgree(u, c);
    }
    if w.end != h.end {
      var u :| u in current && BoundsStart(u) == Some(w.end);
      StartsAgree(u, w.end);
    }
  }

  lemma {:induction false} ClipReason(current: seq<Upstream>, h: Window)
    requires h.end <= h.scheduled
    ensures var w := ClipToCurrent(current, h);
            w.scheduled == h.scheduled && w.end <= h.end && (w.earlyReset <==> h.earlyReset || w.end < h.end)
  {
    if current != [] {
      ClipReason(current[..|current| - 1], h);
    }
  }

  // A window is kept exactly when what is left of it is over and not empty.
  lemma {:induction false} EndedAnswers(built: seq<Window>, current: seq<Upstream>, now: int)
    requires forall h | h in built :: h.end <= h.scheduled
    ensures forall w :: w in Ended(built, current, now)
              <==> w.start < w.end <= now && exists h | h in built :: CutBy(h, current, w)
  {
    if built != [] {
      var n := |built| - 1;
      assert built == built[..n] + [built[n]] && built[n] in built;
      EndedAnswers(built[..n], current, now);
      ClippedIsCut(current, built[n]);
      forall w | CutBy(built[n], current, w) ensures w == ClipToCurrent(current, built[n]) {
        CutIsUnique(built[n], current, w, ClipToCurrent(current, built[n]));
      }
    }
  }

  lemma CutIsUnique(h: Window, current: seq<Upstream>, v: Window, w: Window)
    requires CutBy(h, current, v) && CutBy(h, current, w)
    ensures v == w
  {
  }

  // At most eight windows are shown: all of them if there are no more, else the last eight.
  lemma LatestAnswers(ws: seq<Window>)
    ensures |ws| <= 8 ==> Latest(ws) == ws
    ensures |ws| > 8 ==> |Latest(ws)| == 8 && ws == ws[..|ws| - 8] + Latest(ws)
  {
  }
}
