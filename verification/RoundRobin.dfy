// Round-robin selection (nextAuthPickLocked and highestTier of internal/service/auth_concurrency.go).
// Auth ids are numbered in the order of their names; 0 is the empty name, "nothing picked yet".
module RoundRobin {
  import opened Base

  type AuthId = nat

  datatype Candidate = Candidate(provider: string, id: AuthId, priority: int, disabled: bool)

  const MAX_KEYS: nat := 4096

  // ---------- One pick ----------

  // Offered ids: sorted, none empty, at least one.
  ghost predicate Offered(ids: seq<AuthId>) {
    ids != [] && (forall x | x in ids :: x > 0) && forall i, j | 0 <= i < j < |ids| :: ids[i] <= ids[j]
  }

  // p is the choice after `last`: the smallest offered id above it, or the smallest of all when
  // there is none.
  ghost predicate IsNext(ids: seq<AuthId>, last: AuthId, p: AuthId) {
    && p in ids
    && (if exists x | x in ids :: x > last then p > last && forall x | x in ids && x > last :: p <= x
        else forall x | x in ids :: p <= x)
  }

  lemma NextExists(ids: seq<AuthId>, last: AuthId)
    requires ids != []
    ensures exists p :: IsNext(ids, last, p)
  {
    var all := set x | x in ids;
    assert ids[0] in all;
    var above := set x | x in all && x > last;
    if above != {} {
      var p := Least(above);
      assert p in ids && p > last;
      forall x | x in ids && x > last ensures p <= x {
        assert x in above;
      }
      assert IsNext(ids, last, p);
    } else {
      assert forall x | x in ids :: x !in above;
      var p := Least(all);
      forall x | x in ids ensures p <= x {
        assert x in all;
      }
      assert IsNext(ids, last, p);
    }
  }

  lemma {:induction false} Least(s: set<AuthId>) returns (m: AuthId)
    requires s != {}
    ensures m in s && forall x | x in s :: m <= x
  {
    var x :| x in s;
    m := x;
    if s - {x} != {} {
      var n := Least(s - {x});
      m := if n < x then n else x;
    }
    forall y | y in s ensures m <= y {
      assert y == x || y in s - {x};
    }
  }

  ghost function Next(ids: seq<AuthId>, last: AuthId): (p: AuthId)
    requires ids != []
    ensures IsNext(ids, last, p)
  {
    NextExists(ids, last);
    var p :| IsNext(ids, last, p);
    p
  }

  // ---------- Bounded waiting ----------

  ghost function Picks(last: AuthId, offers: seq<seq<AuthId>>): seq<AuthId>
    requires forall ids | ids in offers :: Offered(ids)
    decreases |offers|
  {
    if offers == [] then []
    else
      assert Offered(offers[0]);
      var p := Next(offers[0], last);
      [p] + Picks(p, offers[1..])
  }

  // Strictly between last and c in cyclic order.
  predicate Between(last: AuthId, x: AuthId, c: AuthId) {
    if last < c then last < x < c else last < x || x < c
  }

  function Ahead(all: set<AuthId>, last: AuthId, c: AuthId): set<AuthId> {
    set x | x in all && Between(last, x, c)
  }

  // A pick that is not c comes from before c and leaves strictly fewer before it.
  lemma PickAdvances(all: set<AuthId>, ids: seq<AuthId>, last: AuthId, c: AuthId)
    requires Offered(ids) && c in ids && forall x | x in ids :: x in all
    ensures var p := Next(ids, last); p != c ==> Ahead(all, p, c) < Ahead(all, last, c)
  {
    var p := Next(ids, last);
    if p != c {
      assert p in Ahead(all, last, c) && p !in Ahead(all, p, c);
    }
  }

  ghost predicate OfferedFrom(offers: seq<seq<AuthId>>, all: set<AuthId>) {
    forall ids | ids in offers :: Offered(ids) && forall x | x in ids :: x in all
  }

  lemma {:induction false} PickedWithin(all: set<AuthId>, last: AuthId, offers: seq<seq<AuthId>>, c: AuthId)
    requires OfferedFrom(offers, all) && forall ids | ids in offers :: c in ids
    requires |offers| > |Ahead(all, last, c)|
    ensures c in Picks(last, offers)
    decreases |offers|
  {
    assert offers[0] in offers;
    var p := Next(offers[0], last);
    PickAdvances(all, offers[0], last, c);
    if p != c {
      SubsetSize(Ahead(all, p, c), Ahead(all, last, c));
      assert forall ids | ids in offers[1..] :: ids in offers;
      PickedWithin(all, p, offers[1..], c);
    }
  }

  // Bounded waiting: whatever the candidate sets do, a candidate offered on every call is picked at
  // least once in any N consecutive picks, N being the number of distinct ids ever offered.
  lemma BoundedWaiting(all: set<AuthId>, last: AuthId, offers: seq<seq<AuthId>>, c: AuthId)
    requires OfferedFrom(offers, all) && forall ids | ids in offers :: c in ids
    requires |offers| >= |all| && offers != []
    ensures c in Picks(last, offers)
  {
    assert offers[0] in offers && c in offers[0];
    assert c in all && c !in Ahead(all, last, c);
    SubsetSize(Ahead(all, last, c), all);
    PickedWithin(all, last, offers, c);
  }

  // ---------- A fixed set ----------

  function Members(s: seq<AuthId>): set<AuthId> {
    set x | x in s
  }

  lemma {:induction false} PicksLength(last: AuthId, offers: seq<seq<AuthId>>)
    requires forall ids | ids in offers :: Offered(ids)
    ensures |Picks(last, offers)| == |offers|
    ensures forall k | 0 <= k < |offers| :: Picks(last, offers)[k] in offers[k]
    decreases |offers|
  {
    if offers != [] {
      assert offers[0] in offers;
      PicksLength(Next(offers[0], last), offers[1..]);
    }
  }

  lemma {:induction false} NoRepeats(s: seq<AuthId>)
    ensures |Members(s)| <= |s|
    ensures |Members(s)| == |s| ==> multiset(s) == multiset(Members(s))
  {
    if s == [] {
      assert Members(s) == {};
    } else {
      var n := |s| - 1;
      NoRepeats(s[..n]);
      assert s == s[..n] + [s[n]];
      assert Members(s) == Members(s[..n]) + {s[n]};
    }
  }

  // On a fixed set of n candidates any n consecutive picks are a permutation of it.
  lemma FixedSetPermutes(last: AuthId, ids: seq<AuthId>)
    requires Offered(ids) && forall i, j | 0 <= i < j < |ids| :: ids[i] != ids[j]
    ensures multiset(Picks(last, seq(|ids|, _ => ids))) == multiset(ids)
  {
    var offers := seq(|ids|, _ => ids);
    var picks := Picks(last, offers);
    PicksLength(last, offers);
    Distinct(ids);
    forall c | c in ids ensures c in picks {
      BoundedWaiting(Members(ids), last, offers, c);
    }
    assert Members(picks) == Members(ids);
    NoRepeats(picks);
    NoRepeats(ids);
  }

  lemma {:induction false} Distinct(s: seq<AuthId>)
    requires forall i, j | 0 <= i < j < |s| :: s[i] != s[j]
    ensures |Members(s)| == |s|
  {
    if s != [] {
      var n := |s| - 1;
      Distinct(s[..n]);
      assert s == s[..n] + [s[n]];
      assert Members(s) == Members(s[..n]) + {s[n]};
    } else {
      assert Members(s) == {};
    }
  }

  // ---------- Many keys share one table ----------

  type Lasts = map<string, AuthId>

  datatype Call = Call(key: string, ids: seq<AuthId>)

  function LastOf(lasts: Lasts, key: string): AuthId {
    if key in lasts then lasts[key] else 0
  }

  // A new key arriving at a full table wipes it.
  function Wiped(lasts: Lasts, key: string): Lasts {
    if key !in lasts && |lasts| >= MAX_KEYS then map[] else lasts
  }

  ghost function Serve(lasts: Lasts, call: Call): Lasts
    requires call.ids != []
  {
    Wiped(lasts, call.key)[call.key := Next(call.ids, LastOf(lasts, call.key))]
  }

  ghost predicate CallsOffered(calls: seq<Call>) {
    forall call | call in calls :: Offered(call.ids)
  }

  // The picks made for one key, in order, by interleaved calls for all keys.
  ghost function PicksFor(lasts: Lasts, calls: seq<Call>, key: string): seq<AuthId>
    requires CallsOffered(calls)
    decreases |calls|
  {
    if calls == [] then []
    else
      assert calls[0] in calls;
      var rest := PicksFor(Serve(lasts, calls[0]), calls[1..], key);
      if calls[0].key == key then [Next(calls[0].ids, LastOf(lasts, key))] + rest else rest
  }

  ghost function OffersFor(calls: seq<Call>, key: string): (offers: seq<seq<AuthId>>)
    ensures forall ids | ids in offers :: exists call :: call in calls && call.key == key && call.ids == ids
  {
    if calls == [] then []
    else if calls[0].key == key then [calls[0].ids] + OffersFor(calls[1..], key)
    else OffersFor(calls[1..], key)
  }

  function KeysOf(calls: seq<Call>): set<string> {
    set call | call in calls :: call.key
  }

  lemma KeysOfSplit(calls: seq<Call>)
    requires calls != []
    ensures KeysOf(calls) == {calls[0].key} + KeysOf(calls[1..])
  {
    assert calls == [calls[0]] + calls[1..];
    forall k | k in {calls[0].key} + KeysOf(calls[1..]) ensures k in KeysOf(calls) {
      if k == calls[0].key {
        assert calls[0] in calls;
      } else {
        var call :| call in calls[1..] && call.key == k;
        assert call in calls;
      }
    }
  }

  lemma NoWipe(lasts: Lasts, key: string, used: set<string>)
    requires lasts.Keys <= used && key in used && |used| <= MAX_KEYS
    ensures Wiped(lasts, key) == lasts
  {
    if key !in lasts {
      SubsetSize(lasts.Keys, used - {key});
    }
  }

  lemma ServeKeepsKeys(lasts: Lasts, calls: seq<Call>)
    requires CallsOffered(calls) && calls != [] && |lasts.Keys + KeysOf(calls)| <= MAX_KEYS
    ensures Offered(calls[0].ids) && Wiped(lasts, calls[0].key) == lasts
    ensures Serve(lasts, calls[0]).Keys + KeysOf(calls[1..]) == lasts.Keys + KeysOf(calls)
  {
    var key := calls[0].key;
    KeysOfSplit(calls);
    NoWipe(lasts, key, lasts.Keys + KeysOf(calls));
    assert Offered(calls[0].ids);
    assert lasts[key := Next(calls[0].ids, LastOf(lasts, key))].Keys == lasts.Keys + {key};
    AddedOnce(lasts.Keys, key, KeysOf(calls[1..]));
  }

  lemma AddedOnce(a: set<string>, k: string, b: set<string>)
    ensures a + {k} + b == a + ({k} + b)
  {
  }

  // While at most 4096 keys are in use no wipe happens, and each key rotates on its own.
  lemma {:induction false} KeysAreIndependent(lasts: Lasts, calls: seq<Call>, key: string)
    requires CallsOffered(calls) && |lasts.Keys + KeysOf(calls)| <= MAX_KEYS
    ensures forall ids | ids in OffersFor(calls, key) :: Offered(ids)
    ensures PicksFor(lasts, calls, key) == Picks(LastOf(lasts, key), OffersFor(calls, key))
    decreases |calls|
  {
    if calls != [] {
      var call, rest := calls[0], calls[1..];
      ServeKeepsKeys(lasts, calls);
      var after := Serve(lasts, call);
      KeysAreIndependent(after, rest, key);
      if call.key == key {
        PicksPrepend(LastOf(lasts, key), call.ids, OffersFor(rest, key));
      }
    }
  }

  lemma PicksPrepend(last: AuthId, ids: seq<AuthId>, offers: seq<seq<AuthId>>)
    requires Offered(ids) && forall x | x in offers :: Offered(x)
    ensures forall x | x in [ids] + offers :: Offered(x)
    ensures Picks(last, [ids] + offers) == [Next(ids, last)] + Picks(Next(ids, last), offers)
  {
    assert ([ids] + offers)[1..] == offers;
  }

  // Bounded waiting for one key among interleaved calls for many.
  lemma InterleavedWaiting(all: set<AuthId>, lasts: Lasts, calls: seq<Call>, key: string, c: AuthId)
    requires CallsOffered(calls) && |lasts.Keys + KeysOf(calls)| <= MAX_KEYS
    requires forall call | call in calls && call.key == key :: c in call.ids && forall x | x in call.ids :: x in all
    requires |OffersFor(calls, key)| >= |all| > 0
    ensures c in PicksFor(lasts, calls, key)
  {
    KeysAreIndependent(lasts, calls, key);
    BoundedWaiting(all, LastOf(lasts, key), OffersFor(calls, key), c);
  }

  // The wipe is what breaks it: with ids 1 and 2 on offer and a full table, a key whose entry is
  // wiped after its pick of 1 picks 1 again.
  lemma WipeRestarts(lasts: Lasts, key: string, other: string)
    requires key in lasts && lasts[key] == 1 && |lasts| == MAX_KEYS && other !in lasts
    ensures PicksFor(lasts, [Call(other, [1]), Call(key, [1, 2])], key) == [1]
    ensures Next([1, 2], lasts[key]) == 2
  {
    var calls := [Call(other, [1]), Call(key, [1, 2])];
    assert calls[1..] == [Call(key, [1, 2])];
    var after := Serve(lasts, calls[0]);
    assert after == map[other := Next([1], 0)];
    assert 2 in [1, 2] && 1 in [1, 2];
    assert PicksFor(after, calls[1..], key)
      == [Next([1, 2], 0)] + PicksFor(Serve(after, calls[1]), calls[1..][1..], key);
  }

  // ---------- The code ----------

  function Ids(available: seq<Candidate>): seq<AuthId> {
    seq(|available|, i requires 0 <= i < |available| => available[i].id)
  }

  function BestPriority(available: seq<Candidate>): int
    requires available != []
  {
    var n := |available| - 1;
    if n == 0 then available[0].priority else Max(BestPriority(available[..n]), available[n].priority)
  }

  function TierAt(available: seq<Candidate>, priority: int): seq<Candidate> {
    if available == [] then []
    else
      var n := |available| - 1;
      TierAt(available[..n], priority) + (if available[n].priority == priority then [available[n]] else [])
  }

  function Tier(available: seq<Candidate>): seq<Candidate>
    requires available != []
  {
    TierAt(available, BestPriority(available))
  }

  ghost predicate SortedById(available: seq<Candidate>) {
    forall i, j | 0 <= i < j < |available| :: available[i].id <= available[j].id
  }

  lemma {:induction false} BestIsReached(available: seq<Candidate>) returns (best: nat)
    requires available != []
    ensures best < |available| && available[best].priority == BestPriority(available)
    ensures forall i | 0 <= i < |available| :: available[i].priority <= BestPriority(available)
  {
    var n := |available| - 1;
    best := n;
    if n > 0 {
      var before := BestIsReached(available[..n]);
      assert forall i | 0 <= i < n :: available[..n][i] == available[i];
      best := if available[n].priority >= BestPriority(available[..n]) then n else before;
    }
  }

  lemma {:induction false} TierAtProperties(available: seq<Candidate>, priority: int)
    ensures forall c :: c in TierAt(available, priority) <==> c in available && c.priority == priority
    ensures SortedById(available) ==> SortedById(TierAt(available, priority))
  {
    if available != [] {
      var n := |available| - 1;
      assert available == available[..n] + [available[n]];
      TierAtProperties(available[..n], priority);
      var rest := TierAt(available[..n], priority);
      forall c | c in rest && SortedById(available) ensures c.id <= available[n].id {
        var i :| 0 <= i < n && available[..n][i] == c;
      }
    }
  }

  // The tier is exactly the candidates no other candidate outranks, still sorted by id.
  lemma TierProperties(available: seq<Candidate>)
    requires available != []
    ensures var tier := Tier(available);
            && tier != []
            && (forall c :: c in tier <==> c in available && forall d | d in available :: d.priority <= c.priority)
            && (SortedById(available) ==> SortedById(tier))
  {
    var top := BestIsReached(available);
    TierAtProperties(available, BestPriority(available));
    assert available[top] in Tier(available);
    forall c | c in available && forall d | d in available :: d.priority <= c.priority ensures c in Tier(available) {
      assert available[top] in available;
      var i :| 0 <= i < |available| && available[i] == c;
    }
    forall c, d | c in Tier(available) && d in available ensures d.priority <= c.priority {
      var i :| 0 <= i < |available| && available[i] == d;
    }
  }

  // highestTier
  method HighestTier(available: seq<Candidate>) returns (tier: seq<Candidate>)
    requires available != []
    ensures tier == Tier(available)
  {
    if |available| == 1 {
      assert available[..0] == [];
      assert TierAt(available, available[0].priority) == available;
      return available;
    }
    var best := available[0].priority;
    for i := 1 to |available|
      invariant best == BestPriority(available[..i])
    {
      assert available[..i + 1][..i] == available[..i];
      if available[i].priority > best {
        best := available[i].priority;
      }
    }
    tier := [];
    for i := 0 to |available|
      invariant tier == TierAt(available[..i], best)
    {
      assert available[..i + 1][..i] == available[..i];
      if available[i].priority == best {
        tier := tier + [available[i]];
      }
    }
    assert available[..|available|] == available;
  }

  // The first candidate with an id.
  function FirstWith(available: seq<Candidate>, id: AuthId): Option<Candidate> {
    if available == [] then None
    else if available[0].id == id then Some(available[0])
    else FirstWith(available[1..], id)
  }

  lemma {:induction false} FirstWithAt(available: seq<Candidate>, index: nat)
    requires index < |available| && forall i | 0 <= i < index :: available[i].id != available[index].id
    ensures FirstWith(available, available[index].id) == Some(available[index])
  {
    if index > 0 {
      FirstWithAt(available[1..], index - 1);
    }
  }

  // nextAuthPickLocked, with the binary search of sort.Search.
  method NextAuthPick(lasts: Lasts, key: string, available: seq<Candidate>) returns (picked: Candidate, after: Lasts)
    requires Offered(Ids(available))
    ensures FirstWith(available, Next(Ids(available), LastOf(lasts, key))) == Some(picked)
    ensures after == Serve(lasts, Call(key, Ids(available)))
  {
    ghost var ids := Ids(available);
    after := Wiped(lasts, key);
    var last, index := LastOf(after, key), 0;
    if last != 0 {
      index := Search(available, last);
      if index >= |available| {
        index := 0;
      }
    }
    picked := available[index];
    assert forall i | 0 <= i < |ids| :: ids[i] == available[i].id;
    assert ids[index] in ids;
    IndexIsNext(ids, last, index);
    FirstWithAt(available, index);
    after := after[key := picked.id];
  }

  lemma IndexIsNext(ids: seq<AuthId>, last: AuthId, index: nat)
    requires Offered(ids) && index < |ids| && (forall i | 0 <= i < index :: ids[i] <= last)
    requires ids[index] > last || (index == 0 && forall i | 0 <= i < |ids| :: ids[i] <= last)
    ensures Next(ids, last) == ids[index]
  {
    forall x | x in ids ensures x > last ==> ids[index] <= x {
      var j :| 0 <= j < |ids| && ids[j] == x;
    }
    forall x | x in ids ensures index == 0 ==> ids[index] <= x {
      var j :| 0 <= j < |ids| && ids[j] == x;
    }
    assert IsNext(ids, last, ids[index]);
  }

  // sort.Search: the first index whose id lies above `last`.
  method Search(available: seq<Candidate>, last: AuthId) returns (low: nat)
    requires Offered(Ids(available))
    ensures low <= |available|
    ensures forall i | 0 <= i < low :: available[i].id <= last
    ensures forall i | low <= i < |available| :: available[i].id > last
  {
    assert forall i | 0 <= i < |available| :: Ids(available)[i] == available[i].id;
    var high := |available|;
    low := 0;
    while low < high
      invariant 0 <= low <= high <= |available|
      invariant forall i | 0 <= i < low :: available[i].id <= last
      invariant forall i | high <= i < |available| :: available[i].id > last
    {
      var mid := (low + high) / 2;
      if available[mid].id > last {
        high := mid;
      } else {
        low := mid + 1;
      }
    }
  }
}
