// Reconstructing the quota windows of one family (internal/service/auth_quota_history.go):
// clipping observed windows, inferring windows in the gaps from ledger requests, and clipping the
// result against the windows the upstream currently reports.
module QuotaHistory {
  import opened Base
  import opened StableSort
  import opened QuotaObservations

  const MAX_INFERRED: nat := 400
  const HISTORY_LIMIT: nat := 8

  // earlyReset is the end reason "early_reset"; otherwise the reason is "natural".
  datatype Window = Window(
    start: int, end: int, scheduled: int, dur: int, used: Option<real>, desc: string,
    source: Source, earlyReset: bool, approx: bool)

  function WindowStart(w: Window): int {
    w.start
  }

  // ---------- Vocabulary of the promises ----------

  // Non-empty, start-ordered and pairwise disjoint.
  ghost predicate Ordered(ws: seq<Window>) {
    && (forall i | 0 <= i < |ws| :: ws[i].start < ws[i].end)
    && (forall i, j | 0 <= i < j < |ws| :: ws[i].end <= ws[j].start)
  }

  ghost predicate From(ws: seq<Window>, lo: int) {
    forall w | w in ws :: lo <= w.start
  }

  ghost predicate Upto(ws: seq<Window>, hi: int) {
    forall w | w in ws :: w.end <= hi
  }

  predicate Contains(w: Window, t: int) {
    w.start <= t < w.end
  }

  ghost predicate Covered(ws: seq<Window>, t: int) {
    exists w | w in ws :: Contains(w, t)
  }

  // The end reason says exactly whether the window was cut before its schedule.
  ghost predicate ReasonAgrees(w: Window) {
    w.end <= w.scheduled && (w.earlyReset <==> w.end < w.scheduled)
  }

  lemma OrderedConcat(a: seq<Window>, b: seq<Window>, mid: int)
    requires Ordered(a) && Ordered(b) && Upto(a, mid) && From(b, mid)
    ensures Ordered(a + b)
  {
    var c := a + b;
    forall i, j | 0 <= i < j < |c| ensures c[i].end <= c[j].start {
      if i < |a| <= j {
        assert a[i] in a && b[j - |a|] in b;
      }
    }
  }

  lemma Associative<T>(a: seq<T>, b: seq<T>, c: seq<T>)
    ensures a + (b + c) == a + b + c
  {
  }

  // Each instant lies in at most one window.
  lemma OrderedUnique(ws: seq<Window>, i: nat, j: nat, t: int)
    requires Ordered(ws) && i < |ws| && j < |ws| && Contains(ws[i], t) && Contains(ws[j], t)
    ensures i == j
  {
  }

  lemma CoverageJoins(a: seq<Window>, b: seq<Window>, t: int)
    ensures Covered(a + b, t) <==> Covered(a, t) || Covered(b, t)
  {
    forall w ensures w in a + b <==> w in a || w in b {
    }
  }

  // ---------- Gap inference ----------

  // A gap up to `to`: bounded when another observation follows, open-ended at `now` otherwise.
  datatype Gap = Gap(to: int, dur: int, desc: string, now: int, bounded: bool)

  function InferredWindow(first: int, g: Gap): Window {
    var end := first + g.dur;
    if g.bounded && end > g.to
    then Window(first, g.to, end, g.dur, None, g.desc, LedgerInferred, true, true)
    else Window(first, end, end, g.dur, None, g.desc, LedgerInferred, false, true)
  }

  ghost function Infer(from: int, g: Gap, reqs: seq<int>, n: nat): seq<Window>
    decreases g.to - from
  {
    if n == 0 || g.to <= from then []
    else
      var first := Earliest(reqs, from, g.to);
      if first.None? then []
      else
        var w := InferredWindow(first.value, g);
        if w.end <= from || w.end > g.now then [w]
        else [w] + Infer(w.end, g, reqs, n - 1)
  }

  ghost function InferGap(from: int, g: Gap, probe: Option<seq<int>>): seq<Window> {
    if probe.None? || g.dur <= 0 then [] else Infer(from, g, probe.value, MAX_INFERRED)
  }

  // What follows the first inferred window.
  ghost function InferAfter(from: int, g: Gap, reqs: seq<int>, n: nat): (tail: seq<Window>)
    requires n > 0 && from < g.to && Earliest(reqs, from, g.to).Some?
    ensures var w := InferredWindow(Earliest(reqs, from, g.to).value, g);
            Infer(from, g, reqs, n) == [w] + tail
  {
    var w := InferredWindow(Earliest(reqs, from, g.to).value, g);
    if w.end <= from || w.end > g.now then [] else Infer(w.end, g, reqs, n - 1)
  }

  // inferQuotaGapWindows: at most 400 turns of probe, append, advance.
  method InferGapWindows(from: int, g: Gap, probe: Option<seq<int>>)
    returns (out: seq<Window>)
    ensures out == InferGap(from, g, probe)
  {
    out := [];
    if probe.None? || g.dur <= 0 || g.to <= from {
      return;
    }
    var n, cursor := 0, from;
    ghost var all := Infer(from, g, probe.value, MAX_INFERRED);
    ghost var rest := all;
    while n < MAX_INFERRED && g.to > cursor
      invariant n <= MAX_INFERRED
      invariant rest == Infer(cursor, g, probe.value, MAX_INFERRED - n)
      invariant all == out + rest
      decreases MAX_INFERRED - n
    {
      var first := Earliest(probe.value, cursor, g.to);
      if first.None? {
        return;
      }
      var w := InferredWindow(first.value, g);
      ghost var tail := InferAfter(cursor, g, probe.value, MAX_INFERRED - n);
      Associative(out, [w], tail);
      out, rest := out + [w], tail;
      if w.end <= cursor || w.end > g.now {
        return;
      }
      cursor := w.end;
      n := n + 1;
    }
  }

  // Inferred windows tile the gap in order; in a bounded gap they stay inside it.
  lemma {:induction false} InferOrdered(from: int, g: Gap, reqs: seq<int>, n: nat)
    requires g.dur > 0
    ensures var out := Infer(from, g, reqs, n);
            Ordered(out) && From(out, from) && |out| <= n && (g.bounded && from <= g.to ==> Upto(out, g.to))
    decreases n
  {
    if n > 0 && g.to > from {
      var first := Earliest(reqs, from, g.to);
      if first.Some? {
        var w := InferredWindow(first.value, g);
        assert from < w.end && (g.bounded ==> w.end <= g.to);
        if w.end <= g.now {
          InferOrdered(w.end, g, reqs, n - 1);
          OrderedConcat([w], Infer(w.end, g, reqs, n - 1), w.end);
        }
      }
    }
  }

  // Every inferred window opens at a ledger request, runs for the family's duration unless a bounded
  // gap ends before, and says so; it knows no use.
  lemma {:induction false} InferEvidence(from: int, g: Gap, reqs: seq<int>, n: nat)
    ensures forall w | w in Infer(from, g, reqs, n) ::
              && w.start in reqs && w.source.LedgerInferred? && w.scheduled == w.start + g.dur && ReasonAgrees(w)
              && w.end == (if g.bounded then Min(g.to, w.scheduled) else w.scheduled)
              && w.dur == g.dur && w.desc == g.desc && w.used.None? && w.approx
    decreases n
  {
    if n > 0 && g.to > from {
      var first := Earliest(reqs, from, g.to);
      if first.Some? {
        var w := InferredWindow(first.value, g);
        if from < w.end <= g.now {
          InferEvidence(w.end, g, reqs, n - 1);
        }
      }
    }
  }

  // ---------- Which requests the allowance reaches ----------

  // How many windows of length dur, each opened by the first request at or after the end of the one
  // before it, end at or before the request at t.
  ghost function WindowsBefore(from: int, dur: int, reqs: seq<int>, t: int): nat
    requires dur > 0 && t in reqs && from <= t
    decreases t - from
  {
    var end := Earliest(reqs, from, t + 1).value + dur;
    if t < end then 0 else 1 + WindowsBefore(end, dur, reqs, t)
  }

  // One turn of the inference: t lies in its window, or is left to the windows after it.
  lemma InferTurn(from: int, g: Gap, reqs: seq<int>, n: nat, t: int)
    requires g.dur > 0 && t in reqs && from <= t < g.to && t < g.now && n > 0
    ensures var end := Earliest(reqs, from, t + 1).value + g.dur;
            InferCoversAt(from, g, reqs, n, t) <==> t < end || InferCoversAt(end, g, reqs, n - 1, t)
  {
    var first := Earliest(reqs, from, g.to);
    assert first == Earliest(reqs, from, t + 1);
    var w, tail := InferredWindow(first.value, g), InferAfter(from, g, reqs, n);
    CoverageJoins([w], tail, t);
    assert w in [w];
    if t >= first.value + g.dur {
      assert !Contains(w, t) && w.end == first.value + g.dur;
    } else {
      assert Contains(w, t);
    }
  }

  // One of at most n windows inferred from `from` on contains t.
  ghost predicate InferCoversAt(from: int, g: Gap, reqs: seq<int>, n: nat, t: int) {
    Covered(Infer(from, g, reqs, n), t)
  }

  // The same as a recursion over the turns.
  ghost predicate Reaches(from: int, dur: int, reqs: seq<int>, n: nat, t: int)
    requires dur > 0 && t in reqs && from <= t
    decreases t - from
  {
    var end := Earliest(reqs, from, t + 1).value + dur;
    n > 0 && (t < end || Reaches(end, dur, reqs, n - 1, t))
  }

  lemma {:induction false} ReachesCounts(from: int, dur: int, reqs: seq<int>, n: nat, t: int)
    requires dur > 0 && t in reqs && from <= t
    ensures Reaches(from, dur, reqs, n, t) <==> WindowsBefore(from, dur, reqs, t) < n
    decreases t - from
  {
    var end := Earliest(reqs, from, t + 1).value + dur;
    if n > 0 && end <= t {
      ReachesCounts(end, dur, reqs, n - 1, t);
    }
  }

  lemma {:induction false} InferReaches(from: int, g: Gap, reqs: seq<int>, n: nat, t: int)
    requires g.dur > 0 && t in reqs && from <= t < g.to && t < g.now
    ensures InferCoversAt(from, g, reqs, n, t) <==> Reaches(from, g.dur, reqs, n, t)
    decreases n
  {
    if n > 0 {
      InferTurn(from, g, reqs, n, t);
      var end := Earliest(reqs, from, t + 1).value + g.dur;
      if t >= end {
        InferReaches(end, g, reqs, n - 1, t);
      }
    }
  }

  // A request in the gap before now is covered exactly when fewer than n windows end before it.
  lemma InferCovers(from: int, g: Gap, reqs: seq<int>, n: nat, t: int)
    requires g.dur > 0 && t in reqs && from <= t < g.to && t < g.now
    ensures Covered(Infer(from, g, reqs, n), t) <==> WindowsBefore(from, g.dur, reqs, t) < n
  {
    InferReaches(from, g, reqs, n, t);
    ReachesCounts(from, g.dur, reqs, n, t);
  }

  // The windows that end before t each open at a request of their own before t.
  lemma {:induction false} WindowsNeedRequests(from: int, dur: int, reqs: seq<int>, t: int)
    requires dur > 0 && t in reqs && from <= t
    ensures WindowsBefore(from, dur, reqs, t) < |set r | r in reqs && from <= r|
    decreases t - from
  {
    var first := Earliest(reqs, from, t + 1).value;
    var these, later := set r | r in reqs && from <= r, set r | r in reqs && first + dur <= r;
    assert first in these;
    if t >= first + dur {
      WindowsNeedRequests(first + dur, dur, reqs, t);
      SubsetSize(later, these - {first});
    }
  }

  // ---------- Observed windows ----------

  // The end after applying the sync boundaries one by one.
  ghost function ClipEnd(boundaries: seq<int>, start: int, end: int): int {
    if boundaries == [] then end
    else
      var e, b := ClipEnd(boundaries[..|boundaries| - 1], start, end), boundaries[|boundaries| - 1];
      if start < b < e then b else e
  }

  lemma {:induction false} ClipEndProperties(boundaries: seq<int>, start: int, end: int)
    requires start < end
    ensures start < ClipEnd(boundaries, start, end) <= end
    ensures ClipEnd(boundaries, start, end) == end || ClipEnd(boundaries, start, end) in boundaries
    ensures forall b | b in boundaries :: !(start < b < ClipEnd(boundaries, start, end))
  {
    if boundaries != [] {
      var n := |boundaries| - 1;
      ClipEndProperties(boundaries[..n], start, end);
      assert boundaries == boundaries[..n] + [boundaries[n]];
    }
  }

  function NextStart(obs: seq<Obs>, i: nat): Option<int>
    requires i < |obs|
  {
    if i + 1 < |obs| then Some(obs[i + 1].start) else None
  }

  // The window of one observation before the sync boundaries are applied.
  function OpenWindow(o: Obs, next: Option<int>): Window {
    var cut := next.Some? && next.value < o.sched;
    Window(o.start, if cut then next.value else o.sched, o.sched, o.dur, o.used, o.desc, o.source, cut, o.approx)
  }

  ghost function ObservedWindow(o: Obs, next: Option<int>, boundaries: seq<int>): Window {
    var w := OpenWindow(o, next);
    var end := ClipEnd(boundaries, w.start, w.end);
    if end == w.end then w else w.(end := end, earlyReset := true, approx := true)
  }

  // The stretch between window i and the next observation, or now after the last one.
  function GapAfter(obs: seq<Obs>, i: nat, now: int): Gap
    requires i < |obs|
  {
    var next := NextStart(obs, i);
    Gap(if next.Some? then next.value else now, obs[i].dur, obs[i].desc, now, next.Some?)
  }

  ghost function Segment(obs: seq<Obs>, i: nat, boundaries: seq<int>, now: int, probe: Option<seq<int>>): seq<Window>
    requires i < |obs|
  {
    var next := NextStart(obs, i);
    var w := ObservedWindow(obs[i], next, boundaries);
    [w] + InferGap(w.end, GapAfter(obs, i, now), probe)
  }

  ghost function Segments(obs: seq<Obs>, boundaries: seq<int>, now: int, probe: Option<seq<int>>): seq<seq<Window>> {
    seq(|obs|, i requires 0 <= i < |obs| => Segment(obs, i, boundaries, now, probe))
  }

  ghost function Join(parts: seq<seq<Window>>): seq<Window> {
    if parts == [] then [] else Join(parts[..|parts| - 1]) + parts[|parts| - 1]
  }

  // The observations the history is built from: decoded, merged, repaired, merged again.
  ghost function Settled(raw: seq<Raw>, now: int, probe: Option<seq<int>>): seq<Obs> {
    Merged(Repaired(Merged(DecodeAll(raw)), now, probe))
  }

  ghost function SyncBoundaries(raw: seq<Raw>): seq<int> {
    Boundaries(Merged(DecodeAll(raw)))
  }

  ghost function History(raw: seq<Raw>, now: int, probe: Option<seq<int>>): seq<Window> {
    Join(Segments(Settled(raw, now, probe), SyncBoundaries(raw), now, probe))
  }

  // The boundary loop `for _, b := range boundaries` of one window.
  method ClipToBoundaries(o: Obs, next: Option<int>, boundaries: seq<int>) returns (w: Window)
    requires WellFormed(o) && (next.Some? ==> o.start < next.value)
    ensures w == ObservedWindow(o, next, boundaries)
  {
    w := OpenWindow(o, next);
    ghost var open := w;
    for i := 0 to |boundaries|
      invariant w.start == open.start && w.end == ClipEnd(boundaries[..i], open.start, open.end)
      invariant w == if w.end == open.end then open else open.(end := w.end, earlyReset := true, approx := true)
      invariant w.end <= open.end
    {
      assert boundaries[..i + 1][..i] == boundaries[..i];
      if boundaries[i] > w.start && boundaries[i] < w.end {
        w := w.(end := boundaries[i], earlyReset := true, approx := true);
      }
    }
    assert boundaries[..|boundaries|] == boundaries;
  }

  // What merging leaves: starts more than the tolerance apart, schedules after starts.
  ghost predicate Tidy(obs: seq<Obs>) {
    Spaced(obs) && forall o | o in obs :: WellFormed(o)
  }

  lemma SettledProperties(raw: seq<Raw>, now: int, probe: Option<seq<int>>)
    ensures Tidy(Settled(raw, now, probe))
  {
    DecodeAllWellFormed(raw);
    MergedWellFormed(DecodeAll(raw));
    var kept := Repaired(Merged(DecodeAll(raw)), now, probe);
    RepairedWellFormed(Merged(DecodeAll(raw)), now, probe);
    MergedWellFormed(kept);
    MergedProperties(kept);
  }

  method DecodeObservations(raw: seq<Raw>) returns (out: seq<Obs>)
    ensures out == DecodeAll(raw)
  {
    out := [];
    for i := 0 to |raw|
      invariant out == DecodeAll(raw[..i])
    {
      assert raw[..i + 1][..i] == raw[..i];
      var o := Decode(raw[i]);
      if o.sched > o.start {
        out := out + [o];
      }
    }
    assert raw[..|raw|] == raw;
  }

  method SettleObservations(raw: seq<Raw>, now: int, probe: Option<seq<int>>)
    returns (obs: seq<Obs>, boundaries: seq<int>)
    ensures obs == Settled(raw, now, probe) && boundaries == SyncBoundaries(raw)
  {
    var decoded := DecodeObservations(raw);
    var merged := MergeObs(decoded);
    var buf := new Obs[|merged|](i requires 0 <= i < |merged| => merged[i]);
    assert buf[..] == merged;
    var kept: nat;
    kept, boundaries := RepairPlaceholders(buf, now, probe);
    obs := MergeObs(buf[..kept]);
  }

  // buildQuotaWindowHistory, ending with the sort that turns out to be the identity.
  method BuildHistory(raw: seq<Raw>, now: int, probe: Option<seq<int>>) returns (out: seq<Window>)
    ensures out == History(raw, now, probe)
  {
    if |raw| == 0 {
      EmptyHistory(now, probe);
      return [];
    }
    var obs, boundaries := SettleObservations(raw, now, probe);
    SettledProperties(raw, now, probe);
    out := AssembleWindows(obs, boundaries, now, probe);
    HistoryOrdered(raw, now, probe);
    HistorySortIsIdentity(out);
    out := Sorted(out, WindowStart);
  }

  lemma JoinNext(parts: seq<seq<Window>>, i: nat, w: Window, gap: seq<Window>)
    requires i < |parts| && parts[i] == [w] + gap
    ensures Join(parts[..i + 1]) == Join(parts[..i]) + [w] + gap
  {
    assert parts[..i + 1][..i] == parts[..i];
    Associative(Join(parts[..i]), [w], gap);
  }

  method AssembleWindows(obs: seq<Obs>, boundaries: seq<int>, now: int, probe: Option<seq<int>>)
    returns (out: seq<Window>)
    requires Tidy(obs)
    ensures out == Join(Segments(obs, boundaries, now, probe))
  {
    out := [];
    ghost var parts := Segments(obs, boundaries, now, probe);
    for i := 0 to |obs|
      invariant out == Join(parts[..i])
    {
      var next := NextStart(obs, i);
      assert obs[i] in obs;
      var w := ClipToBoundaries(obs[i], next, boundaries);
      out := out + [w];
      var gap := InferGapWindows(w.end, GapAfter(obs, i, now), probe);
      JoinNext(parts, i, w, gap);
      out := out + gap;
    }
    assert parts[..|obs|] == parts;
  }

  lemma EmptyHistory(now: int, probe: Option<seq<int>>)
    ensures History([], now, probe) == []
  {
    assert DecodeAll([]) == [];
    assert Merged([]) == [];
    assert Repaired([], now, probe) == [];
    assert Settled([], now, probe) == [];
  }

  lemma HistorySortIsIdentity(ws: seq<Window>)
    requires Ordered(ws)
    ensures Sorted(ws, WindowStart) == ws
  {
    assert Ascending(ws, WindowStart) by {
      forall i, j | 0 <= i < j < |ws| ensures WindowStart(ws[i]) <= WindowStart(ws[j]) {
        assert ws[i].start < ws[i].end <= ws[j].start;
      }
    }
    SortedIdentity(ws, WindowStart);
  }

  // ---------- Order ----------

  lemma ObservedWindowBounds(o: Obs, next: Option<int>, boundaries: seq<int>)
    requires WellFormed(o) && (next.Some? ==> o.start < next.value)
    ensures var w := ObservedWindow(o, next, boundaries);
            && w.start == o.start < w.end && ReasonAgrees(w) && w.scheduled == o.sched
            && (next.Some? ==> w.end <= next.value)
            && (forall b | b in boundaries :: !(w.start < b < w.end))
            && (w.end == o.sched || next == Some(w.end) || w.end in boundaries)
  {
    var w := OpenWindow(o, next);
    ClipEndProperties(boundaries, w.start, w.end);
  }

  lemma SegmentOrdered(obs: seq<Obs>, i: nat, boundaries: seq<int>, now: int, probe: Option<seq<int>>)
    requires i < |obs| && Tidy(obs)
    ensures var s := Segment(obs, i, boundaries, now, probe);
            Ordered(s) && From(s, obs[i].start) && s[0].start == obs[i].start
            && (i + 1 < |obs| ==> Upto(s, obs[i + 1].start))
  {
    var next := NextStart(obs, i);
    assert obs[i] in obs;
    ObservedWindowBounds(obs[i], next, boundaries);
    var w := ObservedWindow(obs[i], next, boundaries);
    var g := GapAfter(obs, i, now);
    var gap := InferGap(w.end, g, probe);
    if probe.Some? {
      InferOrdered(w.end, g, probe.value, MAX_INFERRED);
    }
    OrderedConcat([w], gap, w.end);
  }

  lemma {:induction false} JoinMembers(parts: seq<seq<Window>>)
    ensures forall w :: w in Join(parts) <==> exists i | 0 <= i < |parts| :: w in parts[i]
  {
    if parts != [] {
      var n := |parts| - 1;
      JoinMembers(parts[..n]);
      forall w ensures w in Join(parts) <==> exists i | 0 <= i < |parts| :: w in parts[i] {
        assert w in Join(parts) <==> w in Join(parts[..n]) || w in parts[n];
        if i :| 0 <= i < |parts| && w in parts[i] {
          assert i < n ==> w in parts[..n][i];
        }
      }
    }
  }

  // Part i lies between starts[i] and starts[i + 1].
  ghost predicate Tiles(parts: seq<seq<Window>>, starts: seq<int>) {
    && |parts| == |starts| && (forall i | 0 <= i < |parts| :: Ordered(parts[i]) && From(parts[i], starts[i]))
    && (forall i, j | 0 <= i < j < |parts| :: Upto(parts[i], starts[j]))
    && forall i, j | 0 <= i < j < |starts| :: starts[i] < starts[j]
  }

  lemma {:induction false} JoinOrdered(parts: seq<seq<Window>>, starts: seq<int>)
    requires Tiles(parts, starts)
    ensures Ordered(Join(parts))
    ensures parts != [] ==> forall hi | Upto(parts[|parts| - 1], hi) && starts[|parts| - 1] <= hi ::
            Upto(Join(parts), hi)
  {
    if parts != [] {
      var n := |parts| - 1;
      JoinOrdered(parts[..n], starts[..n]);
      if n > 0 {
        assert parts[..n][n - 1] == parts[n - 1] && starts[..n][n - 1] == starts[n - 1];
      }
      OrderedConcat(Join(parts[..n]), parts[n], starts[n]);
    }
  }

  ghost function Starts(obs: seq<Obs>): seq<int> {
    seq(|obs|, i requires 0 <= i < |obs| => obs[i].start)
  }

  lemma SegmentsTile(obs: seq<Obs>, boundaries: seq<int>, now: int, probe: Option<seq<int>>)
    requires Tidy(obs)
    ensures Tiles(Segments(obs, boundaries, now, probe), Starts(obs))
  {
    var parts := Segments(obs, boundaries, now, probe);
    forall i | 0 <= i < |obs|
      ensures Ordered(parts[i]) && From(parts[i], obs[i].start)
      ensures forall j | i < j < |obs| :: Upto(parts[i], obs[j].start)
    {
      SegmentOrdered(obs, i, boundaries, now, probe);
    }
  }

  // The promise of buildQuotaWindowHistory: for every observation list and every ledger, a
  // non-overlapping, strictly start-ordered list of non-empty windows.
  lemma HistoryOrdered(raw: seq<Raw>, now: int, probe: Option<seq<int>>)
    ensures Ordered(History(raw, now, probe))
  {
    var obs, boundaries := Settled(raw, now, probe), SyncBoundaries(raw);
    SettledProperties(raw, now, probe);
    SegmentsTile(obs, boundaries, now, probe);
    JoinOrdered(Segments(obs, boundaries, now, probe), Starts(obs));
  }

  // ---------- Coverage ----------

  // Whether t, at or after the start of observation i and before the next one, is reached: it lies in
  // the observed window, or fewer than 400 windows of the gap after it end before t.
  ghost predicate Reached(obs: seq<Obs>, i: nat, boundaries: seq<int>, reqs: seq<int>, t: int)
    requires i < |obs| && obs[i].dur > 0 && t in reqs
  {
    var end := ObservedWindow(obs[i], NextStart(obs, i), boundaries).end;
    t < end || WindowsBefore(end, obs[i].dur, reqs, t) < MAX_INFERRED
  }

  // The end of an observed window, stated without its loop: t comes before it exactly when t comes
  // before the schedule, before the next observation and before every boundary after the start.
  lemma ObservedContains(o: Obs, next: Option<int>, boundaries: seq<int>, t: int)
    requires WellFormed(o) && (next.Some? ==> o.start < next.value) && o.start <= t
    ensures t < ObservedWindow(o, next, boundaries).end <==>
            t < o.sched && (next.Some? ==> t < next.value) && forall b | b in boundaries :: !(o.start < b <= t)
  {
    var w := OpenWindow(o, next);
    ClipEndProperties(boundaries, w.start, w.end);
    var end := ClipEnd(boundaries, w.start, w.end);
    if end <= t && end != w.end {
      assert end in boundaries && o.start < end <= t;
    }
  }

  lemma SegmentCovers(obs: seq<Obs>, i: nat, boundaries: seq<int>, now: int, reqs: seq<int>, t: int)
    requires i < |obs| && Tidy(obs)
    requires t in reqs && obs[i].start <= t < now && (i + 1 < |obs| ==> t < obs[i + 1].start)
    ensures obs[i].dur > 0
    ensures Covered(Segment(obs, i, boundaries, now, Some(reqs)), t) <==> Reached(obs, i, boundaries, reqs, t)
  {
    var next := NextStart(obs, i);
    assert obs[i] in obs;
    ObservedWindowBounds(obs[i], next, boundaries);
    var w := ObservedWindow(obs[i], next, boundaries);
    var g := GapAfter(obs, i, now);
    var gap := InferGap(w.end, g, Some(reqs));
    CoverageJoins([w], gap, t);
    assert w in [w];
    if t < w.end {
      assert Contains(w, t);
    } else {
      InferCovers(w.end, g, reqs, MAX_INFERRED, t);
    }
  }

  // The observation in force at t: the last one that starts at or before t.
  ghost predicate InForce(obs: seq<Obs>, i: nat, t: int) {
    i < |obs| && obs[i].start <= t && (i + 1 < |obs| ==> t < obs[i + 1].start)
  }

  lemma EndsBefore(ws: seq<Window>, hi: int, t: int)
    requires Upto(ws, hi) && hi <= t
    ensures !Covered(ws, t)
  {
  }

  lemma BeginsAfter(ws: seq<Window>, lo: int, t: int)
    requires From(ws, lo) && t < lo
    ensures !Covered(ws, t)
  {
  }

  lemma JoinCovers(parts: seq<seq<Window>>, t: int)
    ensures Covered(Join(parts), t) <==> exists i | 0 <= i < |parts| :: Covered(parts[i], t)
  {
    JoinMembers(parts);
  }

  // Only part i can contain an instant between starts[i] and starts[i + 1].
  lemma OnlyPartCovers(parts: seq<seq<Window>>, starts: seq<int>, i: nat, t: int)
    requires Tiles(parts, starts) && i < |parts| && starts[i] <= t && (i + 1 < |parts| ==> t < starts[i + 1])
    ensures Covered(Join(parts), t) <==> Covered(parts[i], t)
  {
    JoinCovers(parts, t);
    forall j | 0 <= j < |parts| && j != i ensures !Covered(parts[j], t) {
      if j < i {
        EndsBefore(parts[j], starts[i], t);
      } else {
        BeginsAfter(parts[j], starts[j], t);
      }
    }
  }

  // t lies in exactly one window.
  ghost predicate InExactlyOne(ws: seq<Window>, t: int) {
    exists i | 0 <= i < |ws| :: Contains(ws[i], t) && forall j | 0 <= j < |ws| && Contains(ws[j], t) :: j == i
  }

  lemma CoveredOnce(ws: seq<Window>, t: int)
    requires Ordered(ws)
    ensures Covered(ws, t) <==> InExactlyOne(ws, t)
  {
    if Covered(ws, t) {
      var w :| w in ws && Contains(w, t);
      var i :| 0 <= i < |ws| && ws[i] == w;
      forall j | 0 <= j < |ws| && Contains(ws[j], t) ensures j == i {
        OrderedUnique(ws, i, j, t);
      }
    }
    if InExactlyOne(ws, t) {
      var i :| 0 <= i < |ws| && Contains(ws[i], t);
      assert ws[i] in ws;
    }
  }

  lemma PartCovers(obs: seq<Obs>, boundaries: seq<int>, now: int, reqs: seq<int>, i: nat, t: int)
    requires Tidy(obs) && InForce(obs, i, t) && t in reqs && t < now
    ensures obs[i].dur > 0
    ensures Covered(Segments(obs, boundaries, now, Some(reqs))[i], t) <==> Reached(obs, i, boundaries, reqs, t)
  {
    SegmentCovers(obs, i, boundaries, now, reqs, t);
    assert Segments(obs, boundaries, now, Some(reqs))[i] == Segment(obs, i, boundaries, now, Some(reqs));
  }

  lemma SegmentsCover(obs: seq<Obs>, boundaries: seq<int>, now: int, reqs: seq<int>, i: nat, t: int)
    requires Tidy(obs) && InForce(obs, i, t) && t in reqs && t < now
    ensures obs[i].dur > 0
    ensures Covered(Join(Segments(obs, boundaries, now, Some(reqs))), t) <==> Reached(obs, i, boundaries, reqs, t)
  {
    PartCovers(obs, boundaries, now, reqs, i, t);
    SegmentsTile(obs, boundaries, now, Some(reqs));
    OnlyPartCovers(Segments(obs, boundaries, now, Some(reqs)), Starts(obs), i, t);
  }

  // Coverage: a ledger request before now lies in exactly one window if and only if the allowance of
  // the gap after the observation in force reaches it.
  lemma HistoryCovers(raw: seq<Raw>, now: int, reqs: seq<int>, i: nat, t: int)
    requires InForce(Settled(raw, now, Some(reqs)), i, t) && t in reqs && t < now
    ensures Settled(raw, now, Some(reqs))[i].dur > 0
    ensures InExactlyOne(History(raw, now, Some(reqs)), t)
            <==> Reached(Settled(raw, now, Some(reqs)), i, SyncBoundaries(raw), reqs, t)
  {
    SettledProperties(raw, now, Some(reqs));
    SegmentsCover(Settled(raw, now, Some(reqs)), SyncBoundaries(raw), now, reqs, i, t);
    HistoryOrdered(raw, now, Some(reqs));
    CoveredOnce(History(raw, now, Some(reqs)), t);
  }

  // From the first settled observation on, some observation is in force.
  lemma {:induction false} SomeInForce(obs: seq<Obs>, n: nat, t: int) returns (i: nat)
    requires n < |obs| && obs[0].start <= t && (n + 1 < |obs| ==> t < obs[n + 1].start)
    ensures InForce(obs, i, t)
  {
    if obs[n].start <= t {
      i := n;
    } else {
      i := SomeInForce(obs, n - 1, t);
    }
  }

  // Before the first settled observation nothing is covered.
  lemma NothingBeforeFirst(raw: seq<Raw>, now: int, probe: Option<seq<int>>, t: int)
    requires Settled(raw, now, probe) != [] ==> t < Settled(raw, now, probe)[0].start
    ensures !Covered(History(raw, now, probe), t)
  {
    var obs, parts := Settled(raw, now, probe), Segments(Settled(raw, now, probe), SyncBoundaries(raw), now, probe);
    SettledProperties(raw, now, probe);
    SegmentsTile(obs, SyncBoundaries(raw), now, probe);
    JoinCovers(parts, t);
    forall i | 0 <= i < |parts| ensures !Covered(parts[i], t) {
      BeginsAfter(parts[i], Starts(obs)[i], t);
    }
  }

  // With at most 400 distinct request times the allowance reaches every request from the first
  // settled observation up to now.
  lemma FewRequestsAreCovered(raw: seq<Raw>, now: int, reqs: seq<int>, t: int)
    requires Settled(raw, now, Some(reqs)) != [] && |set r | r in reqs| <= 400
    requires t in reqs && Settled(raw, now, Some(reqs))[0].start <= t < now
    ensures InExactlyOne(History(raw, now, Some(reqs)), t)
  {
    var obs := Settled(raw, now, Some(reqs));
    var i := SomeInForce(obs, |obs| - 1, t);
    HistoryCovers(raw, now, reqs, i, t);
    var end := ObservedWindow(obs[i], NextStart(obs, i), SyncBoundaries(raw)).end;
    if t >= end {
      WindowsNeedRequests(end, obs[i].dur, reqs, t);
      SubsetSize(set r | r in reqs && end <= r, set r | r in reqs);
    }
  }

  // ---------- The allowance is real ----------

  const FIVE_HOURS: int := 18_000_000

  // One request in each of 401 five-hour windows ten hours apart.
  function SpacedRequests(): seq<int> {
    seq(401, k requires 0 <= k < 401 => (2 * k + 2) * FIVE_HOURS)
  }

  const FIRST_WINDOW: Raw := Raw(0, FIVE_HOURS, 18_000, None, None, 0, 0, "", Sync("sync"))

  // The history of one five-hour window and those requests misses the last of them.
  lemma AllowanceHidesARequest()
    ensures var reqs, last, now := SpacedRequests(), 802 * FIVE_HOURS, 900 * FIVE_HOURS;
            last in reqs && 0 <= last < now && !Covered(History([FIRST_WINDOW], now, Some(reqs)), last)
  {
    var reqs, last, now := SpacedRequests(), 802 * FIVE_HOURS, 900 * FIVE_HOURS;
    assert reqs[400] == last;
    SingleSettled(FIRST_WINDOW, now, Some(reqs));
    var obs := Settled([FIRST_WINDOW], now, Some(reqs));
    WindowsPassed(0, FIVE_HOURS);
    HistoryCovers([FIRST_WINDOW], now, reqs, 0, last);
    HistoryOrdered([FIRST_WINDOW], now, Some(reqs));
    CoveredOnce(History([FIRST_WINDOW], now, Some(reqs)), last);
    assert ObservedWindow(obs[0], NextStart(obs, 0), SyncBoundaries([FIRST_WINDOW])).end == FIVE_HOURS;
  }

  lemma {:induction false} WindowsPassed(k: nat, from: int)
    requires k <= 400 && (2 * k + 1) * FIVE_HOURS == from
    ensures from <= 802 * FIVE_HOURS && 802 * FIVE_HOURS in SpacedRequests()
    ensures WindowsBefore(from, FIVE_HOURS, SpacedRequests(), 802 * FIVE_HOURS) == 400 - k
    decreases 400 - k
  {
    var reqs, t := SpacedRequests(), 802 * FIVE_HOURS;
    assert reqs[400] == t && reqs[k] == (2 * k + 2) * FIVE_HOURS && reqs[k] in reqs;
    var first := Earliest(reqs, from, t + 1).value;
    var j :| 0 <= j < 401 && reqs[j] == first;
    assert first == (2 * j + 2) * FIVE_HOURS;
    assert j == k;
    if k < 400 {
      WindowsPassed(k + 1, first + FIVE_HOURS);
    }
  }

  // A single ordinary observation passes the pipeline unchanged.
  lemma SingleSettled(r: Raw, now: int, probe: Option<seq<int>>)
    requires r.reset > r.start && !Placeholder(Decode(r))
    ensures Settled([r], now, probe) == [Decode(r)] && SyncBoundaries([r]) == []
  {
    assert [r][..0] == [];
    assert DecodeAll([r]) == [Decode(r)];
    SingleMerged(Decode(r));
    SingleRepaired(Decode(r), now, probe);
  }

  lemma SingleRepaired(o: Obs, now: int, probe: Option<seq<int>>)
    requires !Placeholder(o)
    ensures Repaired([o], now, probe) == [o] && Boundaries([o]) == []
  {
    assert [o][..0] == [];
    assert Repaired([o], now, probe) == Repaired([o][..0], now, probe) + [o];
  }

  lemma SingleMerged(o: Obs)
    ensures Merged([o]) == [o]
  {
    assert [o][..0] == [];
    assert Sorted([o], StartOf) == InsertByKey(Sorted([o][..0], StartOf), o, StartOf) == [o];
    assert FoldAll([o]) == FoldInto(FoldAll([o][..0]), o) == [o];
  }

  // ---------- Evidence ----------

  // w shows observation o: its start, schedule, reading and source; it is approximate where o is or
  // where a sync boundary ended it.
  ghost predicate Shows(w: Window, o: Obs, boundaries: seq<int>) {
    && w.start == o.start && w.scheduled == o.sched && w.dur == o.dur && w.used == o.used && w.desc == o.desc
    && w.source == o.source && (o.approx ==> w.approx) && (w.approx ==> o.approx || w.end in boundaries)
  }

  // w is inferred after observation o: for o's duration, from a ledger request, without a reading.
  ghost predicate InferredAfter(w: Window, o: Obs, probe: Option<seq<int>>) {
    && probe.Some? && w.start in probe.value && o.start < w.start
    && w.dur == o.dur && w.scheduled == w.start + o.dur && w.desc == o.desc && w.used.None? && w.approx
  }

  // Every window is inferred after a settled observation or shows one, and then no sync that found no
  // active window falls strictly inside it.
  ghost predicate Evidenced(w: Window, obs: seq<Obs>, boundaries: seq<int>, probe: Option<seq<int>>) {
    && ReasonAgrees(w)
    && if w.source.LedgerInferred? then exists o | o in obs :: InferredAfter(w, o, probe)
       else (exists o | o in obs :: Shows(w, o, boundaries)) && forall b | b in boundaries :: !(w.start < b < w.end)
  }

  ghost predicate AllEvidenced(ws: seq<Window>, obs: seq<Obs>, boundaries: seq<int>, probe: Option<seq<int>>) {
    forall w | w in ws :: Evidenced(w, obs, boundaries, probe)
  }

  lemma SegmentEvidence(obs: seq<Obs>, i: nat, boundaries: seq<int>, now: int, probe: Option<seq<int>>)
    requires i < |obs| && Tidy(obs)
    ensures AllEvidenced(Segment(obs, i, boundaries, now, probe), obs, boundaries, probe)
  {
    var next := NextStart(obs, i);
    assert obs[i] in obs;
    ObservedWindowBounds(obs[i], next, boundaries);
    var w := ObservedWindow(obs[i], next, boundaries);
    ClipEndProperties(boundaries, obs[i].start, OpenWindow(obs[i], next).end);
    assert Shows(w, obs[i], boundaries);
    var g := GapAfter(obs, i, now);
    var gap := InferGap(w.end, g, probe);
    if probe.Some? {
      InferEvidence(w.end, g, probe.value, MAX_INFERRED);
      InferOrdered(w.end, g, probe.value, MAX_INFERRED);
    }
    forall x | x in [w] + gap ensures Evidenced(x, obs, boundaries, probe) {
      if x in gap {
        assert InferredAfter(x, obs[i], probe);
      }
    }
  }

  lemma HistoryEvidence(raw: seq<Raw>, now: int, probe: Option<seq<int>>)
    ensures AllEvidenced(History(raw, now, probe), Settled(raw, now, probe), SyncBoundaries(raw), probe)
  {
    var obs, boundaries := Settled(raw, now, probe), SyncBoundaries(raw);
    var parts := Segments(obs, boundaries, now, probe);
    SettledProperties(raw, now, probe);
    JoinMembers(parts);
    forall w | w in Join(parts) ensures Evidenced(w, obs, boundaries, probe) {
      var i :| 0 <= i < |parts| && w in parts[i];
      SegmentEvidence(obs, i, boundaries, now, probe);
    }
  }

  // ---------- Clipping against the windows the upstream reports now ----------

  // The fields of a current upstream window that quotaWindowBounds reads.
  datatype Upstream = Upstream(cycleStart: Option<int>, resetsAt: Option<int>, durationSeconds: Option<int>)

  function BoundsStart(u: Upstream): Option<int> {
    if u.resetsAt.None? then None
    else if u.cycleStart.Some? && u.cycleStart.value < u.resetsAt.value then u.cycleStart
    else if u.durationSeconds.None? || u.durationSeconds.value <= 0 then None
    else Some(u.resetsAt.value - u.durationSeconds.value * 1000)
  }

  ghost function ClipToCurrent(current: seq<Upstream>, h: Window): Window {
    if current == [] then h
    else
      var w, cs := ClipToCurrent(current[..|current| - 1], h), BoundsStart(current[|current| - 1]);
      if cs.Some? && cs.value < w.end
      then w.(end := cs.value, earlyReset := w.earlyReset || cs.value < w.scheduled)
      else w
  }

  ghost function Ended(built: seq<Window>, current: seq<Upstream>, now: int): seq<Window> {
    if built == [] then []
    else
      var rest, w := Ended(built[..|built| - 1], current, now), ClipToCurrent(current, built[|built| - 1]);
      if w.end > now || w.end <= w.start then rest else rest + [w]
  }

  ghost function Latest(ws: seq<Window>): seq<Window> {
    if |ws| > HISTORY_LIMIT then ws[|ws| - HISTORY_LIMIT..] else ws
  }

  // The per-family loop of applyQuotaWindowHistory for a recent template.
  method EndedWindows(built: seq<Window>, current: seq<Upstream>, now: int) returns (ended: seq<Window>)
    ensures ended == Latest(Ended(built, current, now))
  {
    ended := [];
    for i := 0 to |built|
      invariant ended == Ended(built[..i], current, now)
    {
      assert built[..i + 1][..i] == built[..i];
      var h, end := built[i], built[i].end;
      for j := 0 to |current|
        invariant h.(end := end) == ClipToCurrent(current[..j], built[i])
      {
        assert current[..j + 1][..j] == current[..j];
        var cs := BoundsStart(current[j]);
        if cs.Some? && cs.value < end {
          end := cs.value;
          if !h.earlyReset && cs.value < h.scheduled {
            h := h.(earlyReset := true);
          }
        }
      }
      assert current[..|current|] == current;
      if end > now || end <= h.start {
        continue;
      }
      ended := ended + [h.(end := end)];
    }
    assert built[..|built|] == built;
    if |ended| > HISTORY_LIMIT {
      ended := ended[|ended| - HISTORY_LIMIT..];
    }
  }

  lemma {:induction false} ClipToCurrentProperties(current: seq<Upstream>, h: Window)
    ensures var w := ClipToCurrent(current, h);
            && w == h.(end := w.end, earlyReset := w.earlyReset) && w.end <= h.end
            && (ReasonAgrees(h) ==> ReasonAgrees(w))
            && (forall u | u in current && BoundsStart(u).Some? :: w.end <= BoundsStart(u).value)
            && (w.end == h.end || exists u | u in current :: BoundsStart(u) == Some(w.end))
  {
    if current != [] {
      var n := |current| - 1;
      ClipToCurrentProperties(current[..n], h);
      assert current == current[..n] + [current[n]] && current[n] in current;
    }
  }

  // What one ended window promises: it is over, non-empty, and it stops before every window the
  // upstream currently reports with known bounds.
  ghost predicate EndedBefore(w: Window, current: seq<Upstream>, now: int) {
    && w.start < w.end <= now && ReasonAgrees(w)
    && forall u | u in current && BoundsStart(u).Some? :: w.end <= BoundsStart(u).value
  }

  lemma EndedAppend(ws: seq<Window>, w: Window, last: Window)
    requires Ordered(ws) && w.start < w.end <= last.end && w.start == last.start && Upto(ws, last.start)
    ensures Ordered(ws + [w]) && Upto(ws + [w], last.end)
  {
    OrderedConcat(ws, [w], last.start);
    forall x | x in ws + [w] ensures x.end <= last.end {
      assert x in ws ==> x.end <= last.start;
    }
  }

  lemma {:induction false} EndedProperties(built: seq<Window>, current: seq<Upstream>, now: int)
    requires Ordered(built) && forall w | w in built :: ReasonAgrees(w)
    ensures Ordered(Ended(built, current, now))
    ensures built != [] ==> Upto(Ended(built, current, now), built[|built| - 1].end)
    ensures forall w | w in Ended(built, current, now) :: EndedBefore(w, current, now)
  {
    if built != [] {
      var n := |built| - 1;
      assert built[n] in built;
      EndedProperties(built[..n], current, now);
      ClipToCurrentProperties(current, built[n]);
      var rest, w := Ended(built[..n], current, now), ClipToCurrent(current, built[n]);
      if n > 0 {
        assert built[n - 1].end <= built[n].start;
      }
      if w.start < w.end <= now {
        EndedAppend(rest, w, built[n]);
        assert EndedBefore(w, current, now);
      }
    }
  }

  lemma LatestProperties(all: seq<Window>, current: seq<Upstream>, now: int)
    requires Ordered(all) && forall w | w in all :: EndedBefore(w, current, now)
    ensures Ordered(Latest(all)) && |Latest(all)| <= HISTORY_LIMIT
    ensures forall w | w in Latest(all) :: EndedBefore(w, current, now)
  {
    var ws, k := Latest(all), |all| - |Latest(all)|;
    assert forall i | 0 <= i < |ws| :: ws[i] == all[k + i];
    forall i, j | 0 <= i < j < |ws| ensures ws[i].end <= ws[j].start {
      assert all[k + i].end <= all[k + j].start;
    }
    forall w | w in ws ensures EndedBefore(w, current, now) {
      assert w in all;
    }
  }

  // Whatever is dropped is older than everything kept.
  lemma LatestKeepsNewest(all: seq<Window>, i: nat, j: nat)
    requires Ordered(all) && i < |all| - |Latest(all)| && j < |Latest(all)|
    ensures all[i].end <= Latest(all)[j].start
  {
    assert Latest(all)[j] == all[|all| - |Latest(all)| + j];
  }

  lemma EndedHistory(built: seq<Window>, current: seq<Upstream>, now: int)
    requires Ordered(built) && forall w | w in built :: ReasonAgrees(w)
    ensures var ws := Latest(Ended(built, current, now));
            Ordered(ws) && |ws| <= 8 && forall w | w in ws :: EndedBefore(w, current, now)
  {
    EndedProperties(built, current, now);
    LatestProperties(Ended(built, current, now), current, now);
  }

  // applyQuotaWindowHistory adds at most eight ended windows for a family: ordered, disjoint from
  // each other and from every current upstream window with known bounds.
  lemma AppliedHistory(raw: seq<Raw>, current: seq<Upstream>, now: int, probe: Option<seq<int>>)
    ensures var ws := Latest(Ended(History(raw, now, probe), current, now));
            Ordered(ws) && |ws| <= 8 && forall w | w in ws :: EndedBefore(w, current, now)
  {
    HistoryOrdered(raw, now, probe);
    HistoryEvidence(raw, now, probe);
    EndedHistory(History(raw, now, probe), current, now);
  }
}
