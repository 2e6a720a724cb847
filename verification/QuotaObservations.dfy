// Quota-window observations (internal/service/auth_quota_history.go): sorting and folding
// near-duplicate starts, and repairing "no active window" placeholders from ledger requests.
// Times are milliseconds; an absent time is None and precedes every known time.
module QuotaObservations {
  import opened Base
  import opened StableSort

  const FAKE_START_TOLERANCE: int := 120_000
  const SAME_START_TOLERANCE: int := 120_000

  // Where a stored observation came from, and where a window of the history came from.
  datatype Origin = PlanLimitHistory | Sync(name: string)

  datatype Source = PlanHistory | Reported(name: string) | LedgerFirstRequest | LedgerInferred

  datatype Raw = Raw(
    start: int, reset: int, durationSeconds: int, used: Option<real>, firstUsed: Option<real>,
    firstSeen: int, lastSeen: int, desc: string, origin: Origin)

  datatype Obs = Obs(
    start: int, sched: int, dur: int, used: Option<real>, firstUsed: Option<real>,
    firstSeen: Option<int>, lastSeen: Option<int>, desc: string, source: Source,
    approx: bool, fake: bool)

  function StartOf(o: Obs): int {
    o.start
  }

  function Abs(d: int): int {
    if d < 0 then -d else d
  }

  predicate Later(a: Option<int>, b: Option<int>) {
    a.Some? && (b.None? || a.value > b.value)
  }

  // ---------- Reading raw observations ----------

  function SeenTime(ms: int): Option<int> {
    if ms > 0 then Some(ms) else None
  }

  function Decode(r: Raw): Obs {
    var dur := if r.durationSeconds <= 0 then r.reset - r.start else r.durationSeconds * 1000;
    Obs(r.start, r.reset, dur, r.used, r.firstUsed, SeenTime(r.firstSeen), SeenTime(r.lastSeen),
        r.desc, if r.origin.PlanLimitHistory? then PlanHistory else Reported(r.origin.name), false, false)
  }

  ghost function DecodeAll(raw: seq<Raw>): seq<Obs> {
    if raw == [] then []
    else
      var rest := DecodeAll(raw[..|raw| - 1]);
      var o := Decode(raw[|raw| - 1]);
      if o.sched > o.start then rest + [o] else rest
  }

  ghost predicate WellFormed(o: Obs) {
    o.start < o.sched && o.dur > 0 && !o.source.LedgerInferred?
  }

  lemma {:induction false} DecodeAllWellFormed(raw: seq<Raw>)
    ensures forall o | o in DecodeAll(raw) :: WellFormed(o)
  {
    if raw != [] {
      DecodeAllWellFormed(raw[..|raw| - 1]);
    }
  }

  // ---------- Folding ----------

  function Rank(o: Obs): (r: int)
    ensures 1 <= r <= 3
  {
    if o.source.PlanHistory? then 3 else if !o.fake && !o.approx then 2 else 1
  }

  function FoldSeen(keep: Obs, other: Obs): Obs {
    if (keep.firstSeen.None? || (other.firstSeen.Some? && other.firstSeen.value < keep.firstSeen.value))
       && other.firstSeen.Some? && !keep.source.PlanHistory? && !keep.fake
    then keep.(firstSeen := other.firstSeen, firstUsed := other.firstUsed)
    else keep
  }

  function FoldUsed(keep: Obs, other: Obs): Obs {
    if (keep.used.None?
        || (other.used.Some? && other.used.value > keep.used.value && Later(other.lastSeen, keep.lastSeen)))
       && !keep.source.PlanHistory?
    then keep.(used := other.used)
    else keep
  }

  function Fold(a: Obs, b: Obs): Obs {
    var keep, other := if Rank(b) > Rank(a) then b else a, if Rank(b) > Rank(a) then a else b;
    var folded := FoldUsed(FoldSeen(keep, other), other);
    if folded.desc == "" then folded.(desc := other.desc) else folded
  }

  ghost function FoldInto(acc: seq<Obs>, o: Obs): seq<Obs> {
    if acc != [] && Abs(o.start - acc[|acc| - 1].start) <= SAME_START_TOLERANCE
    then acc[..|acc| - 1] + [Fold(acc[|acc| - 1], o)]
    else acc + [o]
  }

  ghost function FoldAll(s: seq<Obs>): seq<Obs> {
    if s == [] then [] else FoldInto(FoldAll(s[..|s| - 1]), s[|s| - 1])
  }

  ghost function Merged(obs: seq<Obs>): seq<Obs> {
    FoldAll(Sorted(obs, StartOf))
  }

  // mergeQuotaHistoryObs: sort by start, then overwrite the last kept entry while starts are near.
  method MergeObs(obs: seq<Obs>) returns (out: seq<Obs>)
    ensures out == Merged(obs)
  {
    var sorted := Sorted(obs, StartOf);
    out := [];
    for i := 0 to |sorted|
      invariant out == FoldAll(sorted[..i])
    {
      assert sorted[..i + 1][..i] == sorted[..i];
      assert FoldAll(sorted[..i + 1]) == FoldInto(out, sorted[i]);
      var o, n := sorted[i], |out|;
      if n > 0 && Abs(o.start - out[n - 1].start) <= SAME_START_TOLERANCE {
        out := out[..n - 1] + [Fold(out[n - 1], o)];
      } else {
        out := out + [o];
      }
    }
    assert sorted[..|sorted|] == sorted;
  }

  // Merged starts lie more than the tolerance apart.
  ghost predicate Spaced(s: seq<Obs>) {
    forall i, j | 0 <= i < j < |s| :: s[i].start + SAME_START_TOLERANCE < s[j].start
  }

  // rep stands for x: no lower rank, at most one tolerance early, and late by at most one
  // tolerance per rank it gained over x.
  ghost predicate Represents(rep: Obs, x: Obs) {
    && Rank(x) <= Rank(rep)
    && x.start - SAME_START_TOLERANCE <= rep.start <= x.start + (Rank(rep) - Rank(x)) * SAME_START_TOLERANCE
  }

  // The interval, duration and provenance of an entry; what folding never mixes.
  ghost predicate SameCore(a: Obs, b: Obs) {
    a.start == b.start && a.sched == b.sched && a.dur == b.dur && a.source == b.source
    && a.approx == b.approx && a.fake == b.fake
  }

  lemma FoldKeepsOneCore(a: Obs, b: Obs)
    ensures SameCore(Fold(a, b), if Rank(b) > Rank(a) then b else a)
    ensures Rank(Fold(a, b)) == Max(Rank(a), Rank(b))
  {
  }

  // Folding invents no reading: the use is one of the two and never drops below the kept one, and the
  // first sighting moves together with the use seen then, only to an earlier one, and never into a
  // plan-history entry.
  lemma FoldKeepsReadings(a: Obs, b: Obs)
    ensures var f, keep := Fold(a, b), if Rank(b) > Rank(a) then b else a;
            && (f.used == a.used || f.used == b.used)
            && (keep.used.Some? ==> f.used.Some? && f.used.value >= keep.used.value)
            && (SameSighting(f, a) || SameSighting(f, b))
            && (!SameSighting(f, keep) && keep.firstSeen.Some? ==>
              f.firstSeen.Some? && f.firstSeen.value < keep.firstSeen.value)
            && (keep.source.PlanHistory? ==> f.used == keep.used && SameSighting(f, keep))
  {
  }

  predicate SameSighting(a: Obs, b: Obs) {
    a.firstSeen == b.firstSeen && a.firstUsed == b.firstUsed
  }

  // The readings of r were all made in s.
  ghost predicate ReadIn(s: seq<Obs>, r: Obs) {
    (exists o | o in s :: o.used == r.used) && exists o | o in s :: SameSighting(o, r)
  }

  lemma ReadInMore(s: seq<Obs>, t: seq<Obs>, r: Obs)
    requires ReadIn(s, r) && forall o | o in s :: o in t
    ensures ReadIn(t, r)
  {
  }

  lemma {:induction false} FoldAllReads(s: seq<Obs>)
    ensures forall r | r in FoldAll(s) :: ReadIn(s, r)
  {
    if s != [] {
      var n := |s| - 1;
      var acc, o := FoldAll(s[..n]), s[n];
      FoldAllReads(s[..n]);
      forall r | r in FoldInto(acc, o) ensures ReadIn(s, r) {
        assert ReadIn([o], o) by {
          assert o in [o];
        }
        if r in acc {
          ReadInMore(s[..n], s, r);
        } else if r == o {
          ReadInMore([o], s, r);
        } else {
          var last := acc[|acc| - 1];
          FoldKeepsReadings(last, o);
          ReadInMore(s[..n], s, last);
          ReadInMore([o], s, o);
          assert ReadIn(s, r);
        }
      }
    }
  }

  // Whatever is merged, every use and every first sighting that comes out was observed.
  lemma MergedReadings(obs: seq<Obs>)
    ensures forall r | r in Merged(obs) :: ReadIn(obs, r)
  {
    FoldAllReads(Sorted(obs, StartOf));
    SortedMembers(obs, StartOf);
    forall r | r in Merged(obs) ensures ReadIn(obs, r) {
      ReadInMore(Sorted(obs, StartOf), obs, r);
    }
  }

  // A later, higher-ranked near duplicate takes over without losing anyone the old one stood for.
  lemma FoldRepresents(a: Obs, o: Obs, x: Obs)
    requires a.start <= o.start <= a.start + SAME_START_TOLERANCE
    requires Represents(a, x) || x == o
    ensures Represents(Fold(a, o), x)
  {
    FoldKeepsOneCore(a, o);
  }

  lemma StepOrder(s: seq<Obs>)
    requires Ascending(s, StartOf) && |s| >= 2
    ensures Ascending(s[..|s| - 1], StartOf)
    ensures s[|s| - 2].start <= s[|s| - 1].start
  {
    assert StartOf(s[|s| - 2]) <= StartOf(s[|s| - 1]);
  }

  lemma SpacedAppend(acc: seq<Obs>, o: Obs)
    requires Spaced(acc)
    requires acc != [] ==> acc[|acc| - 1].start + SAME_START_TOLERANCE < o.start
    ensures Spaced(acc + [o])
  {
    var out := acc + [o];
    forall i, j | 0 <= i < j < |out| ensures out[i].start + SAME_START_TOLERANCE < out[j].start {
      if j == |acc| && i < |acc| - 1 {
        assert acc[i].start + SAME_START_TOLERANCE < acc[|acc| - 1].start;
      }
    }
  }

  lemma SpacedReplaceLast(acc: seq<Obs>, o: Obs)
    requires Spaced(acc) && acc != [] && acc[|acc| - 1].start <= o.start
    ensures Spaced(acc[..|acc| - 1] + [o])
  {
    var k := |acc| - 1;
    assert k > 0 ==> acc[k - 1].start + SAME_START_TOLERANCE < acc[k].start;
    SpacedAppend(acc[..k], o);
  }

  lemma FoldIntoSpaced(acc: seq<Obs>, o: Obs)
    requires Spaced(acc)
    requires acc != [] ==> acc[|acc| - 1].start <= o.start
    ensures Spaced(FoldInto(acc, o))
    ensures FoldInto(acc, o) != [] && FoldInto(acc, o)[|FoldInto(acc, o)| - 1].start <= o.start
  {
    if acc != [] && Abs(o.start - acc[|acc| - 1].start) <= SAME_START_TOLERANCE {
      FoldKeepsOneCore(acc[|acc| - 1], o);
      SpacedReplaceLast(acc, Fold(acc[|acc| - 1], o));
    } else {
      SpacedAppend(acc, o);
    }
  }

  lemma {:induction false} FoldAllSpaced(s: seq<Obs>)
    requires Ascending(s, StartOf)
    ensures Spaced(FoldAll(s))
    ensures s != [] ==> FoldAll(s) != [] && FoldAll(s)[|FoldAll(s)| - 1].start <= s[|s| - 1].start
  {
    if s != [] {
      var n := |s| - 1;
      if n > 0 {
        StepOrder(s);
      }
      FoldAllSpaced(s[..n]);
      FoldIntoSpaced(FoldAll(s[..n]), s[n]);
    }
  }

  // acc is a faithful summary of s: everyone in s is represented, every entry has a source in s.
  ghost predicate Summary(acc: seq<Obs>, s: seq<Obs>) {
    && (forall x | x in s :: HasRepresentative(acc, x))
    && (forall r | r in acc :: HasSource(s, r))
  }

  ghost predicate HasRepresentative(acc: seq<Obs>, x: Obs) {
    exists r | r in acc :: Represents(r, x)
  }

  ghost predicate HasSource(s: seq<Obs>, r: Obs) {
    exists x | x in s :: SameCore(r, x)
  }

  lemma SummaryAppend(acc: seq<Obs>, s: seq<Obs>, o: Obs)
    requires Summary(acc, s)
    ensures Summary(acc + [o], s + [o])
  {
    var out, t := acc + [o], s + [o];
    forall x | x in t ensures HasRepresentative(out, x) {
      if x in s {
        assert HasRepresentative(acc, x);
        var r :| r in acc && Represents(r, x);
        assert r in out;
      } else {
        assert o in out && Represents(o, x);
      }
    }
    forall r | r in out ensures HasSource(t, r) {
      if r in acc {
        assert HasSource(s, r);
        var x :| x in s && SameCore(r, x);
        assert x in t;
      } else {
        assert o in t && SameCore(r, o);
      }
    }
  }

  lemma FoldHasRepresentative(acc: seq<Obs>, o: Obs, x: Obs)
    requires acc != [] && (x == o || HasRepresentative(acc, x))
    requires acc[|acc| - 1].start <= o.start <= acc[|acc| - 1].start + SAME_START_TOLERANCE
    ensures HasRepresentative(acc[..|acc| - 1] + [Fold(acc[|acc| - 1], o)], x)
  {
    var k := |acc| - 1;
    var rep := Fold(acc[k], o);
    var out := acc[..k] + [rep];
    assert out[k] == rep && rep in out;
    if x == o {
      FoldRepresents(acc[k], o, x);
    } else {
      var r :| r in acc && Represents(r, x);
      var i :| 0 <= i < |acc| && acc[i] == r;
      if i == k {
        FoldRepresents(acc[k], o, x);
      } else {
        assert out[i] == r && r in out;
      }
    }
  }

  lemma FoldHasSource(s: seq<Obs>, a: Obs, o: Obs)
    requires HasSource(s, a)
    ensures HasSource(s + [o], Fold(a, o))
  {
    FoldKeepsOneCore(a, o);
    var x :| x in s && SameCore(a, x);
    var t := s + [o];
    assert x in t && t[|s|] == o;
  }

  lemma SummaryFold(acc: seq<Obs>, s: seq<Obs>, o: Obs)
    requires Summary(acc, s) && acc != []
    requires acc[|acc| - 1].start <= o.start <= acc[|acc| - 1].start + SAME_START_TOLERANCE
    ensures Summary(acc[..|acc| - 1] + [Fold(acc[|acc| - 1], o)], s + [o])
  {
    var k, t := |acc| - 1, s + [o];
    var out := acc[..k] + [Fold(acc[k], o)];
    forall x | x in t ensures HasRepresentative(out, x) {
      FoldHasRepresentative(acc, o, x);
    }
    forall r | r in out ensures HasSource(t, r) {
      if r in acc[..k] {
        assert r in acc && HasSource(s, r);
        var x :| x in s && SameCore(r, x);
        assert x in t;
      } else {
        assert acc[k] in acc;
        FoldHasSource(s, acc[k], o);
      }
    }
  }

  lemma FoldIntoSummary(acc: seq<Obs>, s: seq<Obs>, o: Obs)
    requires Summary(acc, s)
    requires acc != [] ==> acc[|acc| - 1].start <= o.start
    ensures Summary(FoldInto(acc, o), s + [o])
  {
    if acc != [] && Abs(o.start - acc[|acc| - 1].start) <= SAME_START_TOLERANCE {
      assert FoldInto(acc, o) == acc[..|acc| - 1] + [Fold(acc[|acc| - 1], o)];
      SummaryFold(acc, s, o);
    } else {
      assert FoldInto(acc, o) == acc + [o];
      SummaryAppend(acc, s, o);
    }
  }

  lemma {:induction false} FoldAllSummary(s: seq<Obs>)
    requires Ascending(s, StartOf)
    ensures Summary(FoldAll(s), s)
  {
    if s != [] {
      var n := |s| - 1;
      if n > 0 {
        StepOrder(s);
      }
      FoldAllSummary(s[..n]);
      FoldAllSpaced(s[..n]);
      FoldIntoSummary(FoldAll(s[..n]), s[..n], s[n]);
      assert s == s[..n] + [s[n]];
    }
  }

  // What merging promises: spaced starts, nobody lost, nothing invented.
  lemma MergedProperties(obs: seq<Obs>)
    ensures Spaced(Merged(obs))
    ensures Summary(Merged(obs), obs)
    ensures obs != [] ==> Merged(obs) != []
  {
    var sorted := Sorted(obs, StartOf);
    SortedAscending(obs, StartOf);
    SortedMembers(obs, StartOf);
    FoldAllSpaced(sorted);
    FoldAllSummary(sorted);
    forall x | x in obs ensures HasRepresentative(Merged(obs), x) {
      assert x in sorted;
    }
    forall r | r in Merged(obs) ensures HasSource(obs, r) {
      assert HasSource(sorted, r);
      var x :| x in sorted && SameCore(r, x);
      assert x in obs;
    }
    if obs != [] {
      assert obs[0] in sorted;
    }
  }

  lemma PlanHistoryRepresentative(m: seq<Obs>, x: Obs)
    requires HasRepresentative(m, x) && x.source.PlanHistory?
    ensures exists r | r in m ::
              r.source.PlanHistory? && x.start - SAME_START_TOLERANCE <= r.start <= x.start
  {
    var r :| r in m && Represents(r, x);
    assert Rank(r) == 3;
  }

  // A plan-history observation keeps its rank and is never moved later.
  lemma PlanHistoryWins(obs: seq<Obs>, x: Obs)
    requires x in obs && x.source.PlanHistory?
    ensures exists r | r in Merged(obs) ::
              r.source.PlanHistory? && x.start - SAME_START_TOLERANCE <= r.start <= x.start
  {
    MergedProperties(obs);
    PlanHistoryRepresentative(Merged(obs), x);
  }

  lemma MergedWellFormed(obs: seq<Obs>)
    requires forall o | o in obs :: WellFormed(o)
    ensures forall r | r in Merged(obs) :: WellFormed(r)
  {
    MergedProperties(obs);
    forall r | r in Merged(obs) ensures WellFormed(r) {
      assert HasSource(obs, r);
      var x :| x in obs && SameCore(r, x);
    }
  }

  // ---------- Ledger probe ----------

  // The earliest request in [from, to).
  function Earliest(reqs: seq<int>, from: int, to: int): (r: Option<int>)
    ensures r.Some? ==> r.value in reqs && from <= r.value < to
    ensures r.Some? ==> forall t | t in reqs && from <= t < to :: r.value <= t
    ensures r.None? ==> forall t | t in reqs :: !(from <= t < to)
  {
    if reqs == [] then None
    else
      var n := |reqs| - 1;
      var init := Earliest(reqs[..n], from, to);
      assert reqs == reqs[..n] + [reqs[n]];
      if from <= reqs[n] < to && (init.None? || reqs[n] < init.value) then Some(reqs[n]) else init
  }

  // ---------- Placeholder repair ----------

  predicate Placeholder(o: Obs) {
    && !o.source.PlanHistory? && o.firstSeen.Some?
    && Abs(o.start - o.firstSeen.value) <= FAKE_START_TOLERANCE
    && (o.firstUsed.None? || o.firstUsed.value == 0.0)
  }

  // A probe of None means no ledger is available.
  ghost function Repair(o: Obs, now: int, probe: Option<seq<int>>): Option<Obs> {
    if !Placeholder(o) then Some(o)
    else if probe.None? then None
    else
      var first := Earliest(probe.value, o.firstSeen.value, Min(o.sched, now));
      if first.None? then None
      else Some(o.(start := first.value, sched := first.value + o.dur, approx := true, fake := true,
                   source := LedgerFirstRequest))
  }

  ghost function Repaired(obs: seq<Obs>, now: int, probe: Option<seq<int>>): seq<Obs> {
    if obs == [] then []
    else
      var rest, r := Repaired(obs[..|obs| - 1], now, probe), Repair(obs[|obs| - 1], now, probe);
      if r.Some? then rest + [r.value] else rest
  }

  ghost function Boundaries(obs: seq<Obs>): seq<int> {
    if obs == [] then []
    else
      var rest, o := Boundaries(obs[..|obs| - 1]), obs[|obs| - 1];
      if Placeholder(o) then rest + [o.firstSeen.value] else rest
  }

  lemma {:induction false} RepairedShorter(obs: seq<Obs>, now: int, probe: Option<seq<int>>)
    ensures |Repaired(obs, now, probe)| <= |obs|
  {
    if obs != [] {
      RepairedShorter(obs[..|obs| - 1], now, probe);
    }
  }

  // The in-place filter `kept := obs[:0]`: writes never overtake the element being read.
  method RepairPlaceholders(buf: array<Obs>, now: int, probe: Option<seq<int>>)
    returns (kept: nat, boundaries: seq<int>)
    modifies buf
    ensures kept <= buf.Length
    ensures buf[..kept] == Repaired(old(buf[..]), now, probe)
    ensures boundaries == Boundaries(old(buf[..]))
  {
    kept, boundaries := 0, [];
    ghost var obs := buf[..];
    for i := 0 to buf.Length
      invariant kept <= i
      invariant buf[..kept] == Repaired(obs[..i], now, probe)
      invariant forall j | i <= j < buf.Length :: buf[j] == obs[j]
      invariant boundaries == Boundaries(obs[..i])
    {
      assert obs[..i + 1][..i] == obs[..i];
      var o := buf[i];
      if Placeholder(o) {
        boundaries := boundaries + [o.firstSeen.value];
        if probe.None? {
          continue;
        }
        var first := Earliest(probe.value, o.firstSeen.value, Min(o.sched, now));
        if first.None? {
          continue;
        }
        o := o.(start := first.value, sched := first.value + o.dur, approx := true, fake := true,
                source := LedgerFirstRequest);
      }
      buf[kept] := o;
      kept := kept + 1;
    }
    assert obs[..buf.Length] == obs;
  }

  // f is the first request in [from, to).
  ghost predicate FirstRequest(reqs: seq<int>, from: int, to: int, f: int) {
    f in reqs && from <= f < to && forall t | t in reqs && from <= t < to :: f <= t
  }

  // r is placeholder o with its start moved to the first request after the sync that saw it.
  ghost predicate RepairOf(o: Obs, now: int, probe: Option<seq<int>>, r: Obs) {
    && Placeholder(o) && probe.Some? && FirstRequest(probe.value, o.firstSeen.value, Min(o.sched, now), r.start)
    && r == o.(start := r.start, sched := r.start + o.dur, approx := true, fake := true, source := LedgerFirstRequest)
  }

  // Every entry that comes out was an ordinary observation, or is a placeholder that now starts at
  // the first request after its sync and runs for its own duration.
  lemma {:induction false} RepairedWellFormed(obs: seq<Obs>, now: int, probe: Option<seq<int>>)
    requires forall o | o in obs :: WellFormed(o)
    ensures forall r | r in Repaired(obs, now, probe) :: WellFormed(r)
    ensures forall r | r in Repaired(obs, now, probe) ::
              (r in obs && !Placeholder(r)) || exists o | o in obs :: RepairOf(o, now, probe, r)
  {
    if obs != [] {
      var n := |obs| - 1;
      RepairedWellFormed(obs[..n], now, probe);
      var r := Repair(obs[n], now, probe);
      assert obs[n] in obs && forall o | o in obs[..n] :: o in obs;
      forall x | x in Repaired(obs, now, probe)
        ensures WellFormed(x)
        ensures (x in obs && !Placeholder(x)) || exists o | o in obs :: RepairOf(o, now, probe, x)
      {
        if x !in Repaired(obs[..n], now, probe) {
          assert r == Some(x) && (x == obs[n] || RepairOf(obs[n], now, probe, x));
        }
      }
    }
  }

  // No placeholder survives: what is left unrepaired was never one.
  lemma {:induction false} NoPlaceholderSurvives(obs: seq<Obs>, now: int, probe: Option<seq<int>>)
    ensures forall r | r in Repaired(obs, now, probe) && !r.source.LedgerFirstRequest? :: !Placeholder(r) && r in obs
    ensures forall o | o in obs && !Placeholder(o) :: o in Repaired(obs, now, probe)
    ensures forall o | o in obs && Placeholder(o) :: o.firstSeen.value in Boundaries(obs)
  {
    if obs != [] {
      var n := |obs| - 1;
      assert obs == obs[..n] + [obs[n]];
      NoPlaceholderSurvives(obs[..n], now, probe);
    }
  }
}
