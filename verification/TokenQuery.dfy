// The loops of internal/store/model_token_limits.go, proved against the token specification.
module TokenQuery {
  import opened Base
  import opened Calendar
  import opened Sums
  import opened Ledger
  import opened TokenCaps

  // What the scan of the limits has seen so far: no exact name, and the first among the longest
  // matching patterns (best, with length bestLen), or none (bestLen == -1).
  ghost predicate Scanned(env: Env, limits: seq<TokenLimit>, model: string, n: nat, best: TokenLimit, bestLen: int) {
    && n <= |limits| && (forall j | 0 <= j < n :: limits[j].pattern != model)
    && (if bestLen == -1 then forall j | 0 <= j < n :: !Matches(env, limits[j].pattern, model)
        else exists i: nat | i < n ::
          limits[i] == best && |best.pattern| == bestLen && LongestWinner(env, limits[..n], model, i))
  }

  lemma ScanStep(env: Env, limits: seq<TokenLimit>, model: string, n: nat, best: TokenLimit, bestLen: int)
    requires n < |limits| && model != "" && limits[n].pattern != model && Scanned(env, limits, model, n, best, bestLen)
    ensures if Matches(env, limits[n].pattern, model) && |limits[n].pattern| > bestLen
            then Scanned(env, limits, model, n + 1, limits[n], |limits[n].pattern|)
            else Scanned(env, limits, model, n + 1, best, bestLen)
  {
    var before, after := limits[..n], limits[..n + 1];
    assert forall j | 0 <= j < n :: after[j] == before[j] == limits[j];
    if Matches(env, limits[n].pattern, model) && |limits[n].pattern| > bestLen {
      assert LongestWinner(env, after, model, n);
    } else if bestLen != -1 {
      var i: nat :| i < n && limits[i] == best && |best.pattern| == bestLen && LongestWinner(env, before, model, i);
      assert LongestWinner(env, after, model, i);
    }
  }

  // MatchModelTokenLimit: an exact name returns at once, otherwise the longest matching glob.
  method MatchModelTokenLimit(env: Env, limits: seq<TokenLimit>, model: string) returns (r: Option<TokenLimit>)
    ensures r.Some? <==> model != "" && SomeMatch(env, limits, model)
    ensures r.Some? ==> r.value == Winner(env, limits, model)
  {
    if model == "" || limits == [] {
      return None;
    }
    var glob, globLen := limits[0], -1;
    for n := 0 to |limits|
      invariant -1 <= globLen && Scanned(env, limits, model, n, glob, globLen)
    {
      var limit := limits[n];
      if limit.pattern == model {
        assert ExactWinner(limits, model, n);
        FoundWinner(env, limits, model, n);
        return Some(limit);
      }
      ScanStep(env, limits, model, n, glob, globLen);
      if limit.pattern != "" && env.glob(limit.pattern, model) && |limit.pattern| > globLen {
        glob, globLen := limit, |limit.pattern|;
      }
    }
    assert limits[..|limits|] == limits;
    if globLen >= 0 {
      ghost var i: nat :| i < |limits| && limits[i] == glob && LongestWinner(env, limits, model, i);
      FoundWinner(env, limits, model, i);
      return Some(glob);
    }
    return None;
  }

  lemma FoundWinner(env: Env, limits: seq<TokenLimit>, model: string, i: nat)
    requires model != "" && IsWinner(env, limits, model, i)
    ensures SomeMatch(env, limits, model) && Winner(env, limits, model) == limits[i]
  {
    assert limits[i] in limits && Matches(env, limits[i].pattern, model);
    var w: nat :| IsWinner(env, limits, model, w) && Winner(env, limits, model) == limits[w];
    WinnerUnique(env, limits, model, i, w);
  }

  // ---------- Totals per model ----------

  type Totals = map<string, int>

  function Get(totals: Totals, model: string): int {
    if model in totals then totals[model] else 0
  }

  // The models of a total that share a pattern.
  function Selected(env: Env, pattern: string): (string, int) -> int {
    (model: string, tokens: int) => if Matches(env, pattern, model) then tokens else 0
  }

  lemma AddedTotal(env: Env, totals: Totals, pattern: string, model: string, tokens: int)
    ensures SumMap(totals[model := Get(totals, model) + tokens], Selected(env, pattern))
         == SumMap(totals, Selected(env, pattern)) + (if Matches(env, pattern, model) then tokens else 0)
  {
    SumUpdate(totals, Selected(env, pattern), model, Get(totals, model) + tokens);
  }

  // The four sums of one grouped query.
  datatype ByPeriod = ByPeriod(total: Totals, daily: Totals, weekly: Totals, monthly: Totals) {
    function Of(p: Option<Period>): Totals {
      match p
      case None => total
      case Some(Daily) => daily
      case Some(Weekly) => weekly
      case Some(Monthly) => monthly
    }
  }

  // What the query reads of a row.
  datatype Entry = Entry(model: string, tokens: int, created: int)

  function SettledEntry(k: Id): (Id, Row) -> Option<Entry> {
    (l: Id, row: Row) => if row.key == k then Some(Entry(row.model, row.tokens, row.created)) else None
  }

  function HeldEntry(k: Id): (Id, Reservation) -> Option<Entry> {
    (id: Id, r: Reservation) =>
      if r.key == k && r.status.Held? then Some(Entry(r.model, r.estimate, r.created)) else None
  }

  // CASE WHEN created >= start THEN tokens ELSE 0 END
  function Counted(e: Entry, start: int): int {
    if e.created >= start then e.tokens else 0
  }

  // What a period sums over the individual rows of one pattern.
  function Column<V>(env: Env, entry: (Id, V) -> Option<Entry>, start: int, from: int,
                     pattern: string): (Id, V) -> int
  {
    (id: Id, v: V) =>
      var e := entry(id, v);
      if e.Some? && e.value.created >= from && Matches(env, pattern, e.value.model) then Counted(e.value, start) else 0
  }

  function AddTo(totals: Totals, e: Entry, start: int): Totals {
    totals[e.model := Get(totals, e.model) + Counted(e, start)]
  }

  function AddEntry(t: ByPeriod, e: Entry, s: TokenStarts): ByPeriod {
    ByPeriod(AddTo(t.total, e, s.total), AddTo(t.daily, e, s.daily), AddTo(t.weekly, e, s.weekly),
      AddTo(t.monthly, e, s.monthly))
  }

  // Groups so far plus rows to come, for one pattern and one period.
  ghost function Pending<V>(env: Env, totals: Totals, todo: map<Id, V>, entry: (Id, V) -> Option<Entry>,
                            start: int, from: int, pattern: string): int
  {
    SumMap(totals, Selected(env, pattern)) + SumMap(todo, Column(env, entry, start, from, pattern))
  }

  predicate Queried(e: Option<Entry>, from: int) {
    e.Some? && e.value.created >= from
  }

  // Moving one row into its group changes no column's total.
  lemma ColumnStep<V>(env: Env, totals: Totals, todo: map<Id, V>, id: Id, entry: (Id, V) -> Option<Entry>,
                      start: int, from: int, pattern: string)
    requires id in todo
    ensures var e := entry(id, todo[id]);
            Pending(env, if Queried(e, from) then AddTo(totals, e.value, start) else totals,
                    todo - {id}, entry, start, from, pattern)
            == Pending(env, totals, todo, entry, start, from, pattern)
  {
    var e, f := entry(id, todo[id]), Column(env, entry, start, from, pattern);
    SumRemove(todo, f, id);
    if Queried(e, from) {
      AddedTotal(env, totals, pattern, e.value.model, Counted(e.value, start));
    }
  }

  // queryModelPeriodTokenTotals: SELECT model and four SUMs WHERE created >= from GROUP BY model.
  // Summing the groups that share a pattern is summing the individual rows.
  method GroupByModel<V>(env: Env, rows: map<Id, V>, entry: (Id, V) -> Option<Entry>, s: TokenStarts, from: int,
                         ghost pattern: string) returns (t: ByPeriod)
    ensures forall p ::
              SumMap(t.Of(p), Selected(env, pattern)) == SumMap(rows, Column(env, entry, StartOf(s, p), from, pattern))
  {
    t := ByPeriod(map[], map[], map[], map[]);
    var todo := rows;
    EmptyGroups(env, t, pattern);
    while todo.Keys != {}
      invariant GroupsAdd(env, t, todo, rows, entry, s, from, pattern)
      decreases todo.Keys
    {
      var id :| id in todo;
      var e := entry(id, todo[id]);
      GroupStep(env, t, todo, rows, id, entry, s, from, pattern);
      if e.Some? && e.value.created >= from {
        t := AddEntry(t, e.value, s);
      }
      todo := todo - {id};
    }
  }

  // In every period the groups so far and the rows to come add up to all rows.
  ghost predicate GroupsAdd<V>(env: Env, t: ByPeriod, todo: map<Id, V>, rows: map<Id, V>,
                               entry: (Id, V) -> Option<Entry>,
                               s: TokenStarts, from: int, pattern: string)
  {
    forall p :: Pending(env, t.Of(p), todo, entry, StartOf(s, p), from, pattern)
                == SumMap(rows, Column(env, entry, StartOf(s, p), from, pattern))
  }

  lemma GroupStep<V>(env: Env, t: ByPeriod, todo: map<Id, V>, rows: map<Id, V>, id: Id, entry: (Id, V) -> Option<Entry>,
                     s: TokenStarts, from: int, pattern: string)
    requires id in todo && GroupsAdd(env, t, todo, rows, entry, s, from, pattern)
    ensures var e := entry(id, todo[id]);
            GroupsAdd(env, if Queried(e, from) then AddEntry(t, e.value, s) else t,
                      todo - {id}, rows, entry, s, from, pattern)
  {
    var e := entry(id, todo[id]);
    var next := if Queried(e, from) then AddEntry(t, e.value, s) else t;
    forall p ensures Pending(env, next.Of(p), todo - {id}, entry, StartOf(s, p), from, pattern)
                  == Pending(env, t.Of(p), todo, entry, StartOf(s, p), from, pattern)
    {
      ColumnStep(env, t.Of(p), todo, id, entry, StartOf(s, p), from, pattern);
      assert Queried(e, from) ==> next.Of(p) == AddTo(t.Of(p), e.value, StartOf(s, p));
    }
  }

  lemma EmptyGroups(env: Env, t: ByPeriod, pattern: string)
    requires t == ByPeriod(map[], map[], map[], map[])
    ensures forall p :: SumMap(t.Of(p), Selected(env, pattern)) == 0
  {
    forall p ensures SumMap(t.Of(p), Selected(env, pattern)) == 0 {
      assert t.Of(p) == map[];
    }
  }

  method AddTotals(env: Env, settled: Totals, held: Totals, ghost pattern: string) returns (totals: Totals)
    ensures SumMap(totals, Selected(env, pattern))
            == SumMap(settled, Selected(env, pattern)) + SumMap(held, Selected(env, pattern))
  {
    totals := settled;
    ghost var f := Selected(env, pattern);
    var todo := held;
    while todo.Keys != {}
      invariant SumMap(totals, f) + SumMap(todo, f) == SumMap(settled, f) + SumMap(held, f)
      decreases todo.Keys
    {
      var model :| model in todo;
      SumRemove(todo, f, model);
      AddedTotal(env, totals, pattern, model, todo[model]);
      totals := totals[model := Get(totals, model) + todo[model]];
      todo := todo - {model};
    }
    SumEmpty(f);
  }

  lemma SettledColumn(env: Env, ledger: map<Id, Row>, k: Id, start: int, from: int, pattern: string)
    ensures SumMap(ledger, Column(env, SettledEntry(k), start, from, pattern))
         == SumMap(ledger, RowTokens(env, k, pattern, Max(start, from)))
  {
    var f, g := Column(env, SettledEntry(k), start, from, pattern), RowTokens(env, k, pattern, Max(start, from));
    forall l | l in ledger ensures f(l, ledger[l]) == g(l, ledger[l]) {
      assert SettledEntry(k)(l, ledger[l]).Some? <==> ledger[l].key == k;
    }
    SumSame(ledger, ledger, f, g);
  }

  lemma HeldColumn(env: Env, reservations: map<Id, Reservation>, k: Id, start: int, from: int, pattern: string)
    ensures SumMap(reservations, Column(env, HeldEntry(k), start, from, pattern))
         == SumMap(reservations, HeldTokens(env, k, pattern, Max(start, from)))
  {
    var f, g := Column(env, HeldEntry(k), start, from, pattern), HeldTokens(env, k, pattern, Max(start, from));
    forall id | id in reservations ensures f(id, reservations[id]) == g(id, reservations[id]) {
      assert HeldEntry(k)(id, reservations[id]).Some? <==> reservations[id].key == k && reservations[id].status.Held?;
    }
    SumSame(reservations, reservations, f, g);
  }

  // loadModelPeriodTokenTotals: two grouped queries and the merge of the second into the first.
  method LoadTotals(env: Env, db: Db, k: Id, s: TokenStarts, ghost pattern: string) returns (t: ByPeriod)
    ensures forall p ::
              SumMap(t.Of(p), Selected(env, pattern)) == QueriedTokens(env, db, k, pattern, StartOf(s, p), QueryFrom(s))
  {
    var from := ScanStart(s);
    var settled := GroupByModel(env, db.ledger, SettledEntry(k), s, from, pattern);
    var held := GroupByModel(env, db.reservations, HeldEntry(k), s, from, pattern);
    var total := AddTotals(env, settled.total, held.total, pattern);
    var daily := AddTotals(env, settled.daily, held.daily, pattern);
    var weekly := AddTotals(env, settled.weekly, held.weekly, pattern);
    var monthly := AddTotals(env, settled.monthly, held.monthly, pattern);
    t := ByPeriod(total, daily, weekly, monthly);
    forall p
      ensures SumMap(t.Of(p), Selected(env, pattern)) == QueriedTokens(env, db, k, pattern, StartOf(s, p), from)
    {
      SettledColumn(env, db.ledger, k, StartOf(s, p), from, pattern);
      HeldColumn(env, db.reservations, k, StartOf(s, p), from, pattern);
      assert SumMap(t.Of(p), Selected(env, pattern))
          == SumMap(settled.Of(p), Selected(env, pattern)) + SumMap(held.Of(p), Selected(env, pattern));
    }
  }

  method ScanStart(s: TokenStarts) returns (from: int)
    ensures from == QueryFrom(s)
    ensures s.daily > 0 && s.weekly > 0 && s.monthly > 0 ==>
              from <= s.daily && from <= s.weekly && from <= s.monthly && (s.total != 0 ==> from <= s.total)
  {
    from := s.total;
    var starts := [s.daily, s.weekly, s.monthly];
    for i := 0 to |starts|
      invariant from == (if i == 0 then s.total else if i == 1 then Earlier(s.total, s.daily)
                         else if i == 2 then Earlier(Earlier(s.total, s.daily), s.weekly) else QueryFrom(s))
    {
      if from == 0 || starts[i] < from {
        from := starts[i];
      }
    }
  }

  // enforceModelTokenLimits; a negative estimate counts as 0.
  method EnforceModelTokenLimits(env: Env, db: Db, k: Id, model: string, estimate: int, now: int)
    returns (e: Option<Error>)
    requires k in db.keys
    ensures e == TokenRefusal(env, db, k, model, Max(0, estimate), now)
  {
    var policy := db.keys[k].policy;
    var matched := MatchModelTokenLimit(env, policy.limits, model);
    if matched.None? {
      return if policy.unmatchedDisabled then Some(ModelNotAllowed) else None;
    }
    var limit, s := matched.value, StartsOf(env, db.keys[k], now);
    var wanted := if estimate < 0 then 0 else estimate;
    if limit.total == 0 && limit.daily == 0 && limit.weekly == 0 && limit.monthly == 0 {
      return None;
    }
    var totals := LoadTotals(env, db, k, s, limit.pattern);
    e := FirstExceeded(env, limit, totals, wanted);
    ExceededIsRefusal(env, db, k, limit, s, totals, wanted);
  }

  const PERIODS: seq<Option<Period>> := [None, Some(Daily), Some(Weekly), Some(Monthly)]

  ghost predicate Exceeded(env: Env, limit: TokenLimit, totals: ByPeriod, estimate: int, p: Option<Period>) {
    CapOf(limit, p) > 0 && SumMap(totals.Of(p), Selected(env, limit.pattern)) > CapOf(limit, p) - estimate
  }

  // The loop over the four periods: the first exceeded one decides.
  method FirstExceeded(env: Env, limit: TokenLimit, totals: ByPeriod, estimate: int) returns (e: Option<Error>)
    ensures e.None? ==> forall p | p in PERIODS :: !Exceeded(env, limit, totals, estimate, p)
    ensures e.Some? ==> exists i | 0 <= i < |PERIODS| ::
                          && e.value == ExceededError(PERIODS[i]) && Exceeded(env, limit, totals, estimate, PERIODS[i])
                          && forall j | 0 <= j < i :: !Exceeded(env, limit, totals, estimate, PERIODS[j])
  {
    for i := 0 to |PERIODS|
      invariant forall j | 0 <= j < i :: !Exceeded(env, limit, totals, estimate, PERIODS[j])
    {
      var p := PERIODS[i];
      if CapOf(limit, p) > 0 {
        var used := SumRows(totals.Of(p), Selected(env, limit.pattern));
        if used > CapOf(limit, p) - estimate {
          return Some(ExceededError(p));
        }
      }
    }
    e := None;
  }

  function ExceededError(p: Option<Period>): Error {
    if p.None? then TotalTokensExceeded else PeriodTokensExceeded(p.value)
  }

  lemma ExceededIsRefusal(env: Env, db: Db, k: Id, limit: TokenLimit, s: TokenStarts, totals: ByPeriod, estimate: int)
    requires forall p :: SumMap(totals.Of(p), Selected(env, limit.pattern))
                         == QueriedTokens(env, db, k, limit.pattern, StartOf(s, p), QueryFrom(s))
    ensures (forall p | p in PERIODS :: !Exceeded(env, limit, totals, estimate, p)) ==>
              LimitRefusal(env, db, k, limit, s, estimate) == None
    ensures forall i | 0 <= i < |PERIODS| && Exceeded(env, limit, totals, estimate, PERIODS[i])
                       && (forall j | 0 <= j < i :: !Exceeded(env, limit, totals, estimate, PERIODS[j])) ::
              LimitRefusal(env, db, k, limit, s, estimate) == Some(ExceededError(PERIODS[i]))
  {
    var from := QueryFrom(s);
    forall p: Option<Period>
      ensures Exceeded(env, limit, totals, estimate, p)
           == CapExceeded(env, db, k, limit.pattern, CapOf(limit, p), StartOf(s, p), from, estimate)
    {
    }
    assert PERIODS[0] == None && PERIODS[1] == Some(Daily) && PERIODS[2] == Some(Weekly) && PERIODS[3] == Some(Monthly);
    assert PERIODS[0] in PERIODS && PERIODS[1] in PERIODS && PERIODS[2] in PERIODS && PERIODS[3] in PERIODS;
    forall i | 0 <= i < |PERIODS| && Exceeded(env, limit, totals, estimate, PERIODS[i])
               && (forall j | 0 <= j < i :: !Exceeded(env, limit, totals, estimate, PERIODS[j]))
      ensures LimitRefusal(env, db, k, limit, s, estimate) == Some(ExceededError(PERIODS[i]))
    {
      assert i > 0 ==> !Exceeded(env, limit, totals, estimate, PERIODS[0]);
      assert i > 1 ==> !Exceeded(env, limit, totals, estimate, PERIODS[1]);
      assert i > 2 ==> !Exceeded(env, limit, totals, estimate, PERIODS[2]);
    }
  }
}
