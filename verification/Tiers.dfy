// Price-card selection (internal/money/tiers.go) and the relation between the amount held when a
// request starts and the amount charged when it ends (internal/service/reserve.go).
module Tiers {
  import opened Base
  import opened Money

  datatype TierKind = ContextTier | ServiceTier | OtherTier

  // `services` holds the normalised names of the comma-separated service list.
  datatype Tier = Tier(kind: TierKind, threshold: int64, services: set<string>, price: Price)

  function OverlayRates(base: Price, overlay: Price): Price {
    base.(
      input := if overlay.input != 0 then overlay.input else base.input,
      output := if overlay.output != 0 then overlay.output else base.output,
      reasoning := if overlay.reasoning != 0 then overlay.reasoning else base.reasoning,
      cached := if overlay.cached != 0 then overlay.cached else base.cached,
      cacheRead := if overlay.cacheRead != 0 then overlay.cacheRead else base.cacheRead,
      cacheCreation := if overlay.cacheCreation != 0 then overlay.cacheCreation else base.cacheCreation)
  }

  function ContextTokens(usage: TokenUsage, mode: Accounting): int64 {
    var cache := SaturatingAdd(CacheReadTokens(usage), usage.cacheCreation);
    if ResolveAccounting(mode, false) == ExcludesCache then SaturatingAdd(usage.input, cache)
    else if usage.input > 0 then usage.input
    else cache
  }

  // The rates of a card one by one.
  datatype Rate = InputRate | OutputRate | ReasoningRate | CachedRate | ReadRate | CreationRate

  function RateOf(p: Price, r: Rate): int64 {
    match r
    case InputRate => p.input
    case OutputRate => p.output
    case ReasoningRate => p.reasoning
    case CachedRate => p.cached
    case ReadRate => p.cacheRead
    case CreationRate => p.cacheCreation
  }

  // A tier replaces exactly the rates it sets, and neither mode nor image price.
  lemma OverlayReplacesSetRates(base: Price, overlay: Price)
    ensures var card := OverlayRates(base, overlay);
            && (forall r :: RateOf(card, r) == if RateOf(overlay, r) == 0 then RateOf(base, r) else RateOf(overlay, r))
            && card.accounting == base.accounting && card.billing == base.billing && card.perImage == base.perImage
  {
  }

  // The prompt size a threshold is compared with: where cache is counted beside the input, everything
  // read; otherwise the input, or the cache of a usage that reports no input.
  lemma PromptSize(usage: TokenUsage, mode: Accounting)
    requires usage.Valid()
    ensures var cache := ReadTokens(usage) + usage.cacheCreation as int;
            ContextTokens(usage, mode) as int
            == if mode == ExcludesCache then Min(MAX_INT64, usage.input as int + cache)
               else if usage.input != 0 then usage.input as int
               else Min(MAX_INT64, cache)
  {
  }

  // ---------- Which card applies, stated without an algorithm ----------

  ghost predicate ServiceMatch(t: Tier, service: string) {
    t.kind.ServiceTier? && service != "" && service in t.services
  }

  ghost predicate ContextMatch(t: Tier, tokens: int64) {
    t.kind.ContextTier? && 0 < t.threshold <= tokens
  }

  ghost predicate FirstServiceCard(tiers: seq<Tier>, service: string, i: nat) {
    && i < |tiers| && ServiceMatch(tiers[i], service)
    && forall j | 0 <= j < i :: !ServiceMatch(tiers[j], service)
  }

  // The highest reached threshold; the earliest card among equal thresholds.
  ghost predicate BestContextCard(tiers: seq<Tier>, tokens: int64, i: nat) {
    && i < |tiers| && ContextMatch(tiers[i], tokens)
    && (forall j | 0 <= j < |tiers| && ContextMatch(tiers[j], tokens) :: tiers[j].threshold <= tiers[i].threshold)
    && (forall j | 0 <= j < i && ContextMatch(tiers[j], tokens) :: tiers[j].threshold < tiers[i].threshold)
  }

  // A service card beats every context card, which beats the base card.
  ghost predicate Selected(base: Price, tiers: seq<Tier>, usage: TokenUsage, service: string, card: Price) {
    var tokens := ContextTokens(usage, base.accounting);
    if base.billing.PerImage? then card == base
    else if exists t | t in tiers :: ServiceMatch(t, service) then
      exists i: nat :: FirstServiceCard(tiers, service, i) && card == OverlayRates(base, tiers[i].price)
    else if exists t | t in tiers :: ContextMatch(t, tokens) then
      exists i: nat :: BestContextCard(tiers, tokens, i) && card == OverlayRates(base, tiers[i].price)
    else card == base
  }

  lemma SelectedUnique(base: Price, tiers: seq<Tier>, usage: TokenUsage, service: string, c: Price, d: Price)
    requires Selected(base, tiers, usage, service, c) && Selected(base, tiers, usage, service, d)
    ensures c == d
  {
    var tokens := ContextTokens(usage, base.accounting);
    if base.billing.PerImage? {
    } else if exists t | t in tiers :: ServiceMatch(t, service) {
      var i: nat :| FirstServiceCard(tiers, service, i) && c == OverlayRates(base, tiers[i].price);
      var j: nat :| FirstServiceCard(tiers, service, j) && d == OverlayRates(base, tiers[j].price);
      assert i == j;
    } else if exists t | t in tiers :: ContextMatch(t, tokens) {
      var i: nat :| BestContextCard(tiers, tokens, i) && c == OverlayRates(base, tiers[i].price);
      var j: nat :| BestContextCard(tiers, tokens, j) && d == OverlayRates(base, tiers[j].price);
      assert i == j;
    }
  }

  // SelectPrice: two scans with a best-so-far card.
  method SelectPrice(base: Price, tiers: seq<Tier>, usage: TokenUsage, service: string) returns (card: Price)
    ensures Selected(base, tiers, usage, service, card)
  {
    if base.billing.PerImage? || |tiers| == 0 {
      return base;
    }
    if service != "" {
      for i := 0 to |tiers|
        invariant forall j | 0 <= j < i :: !ServiceMatch(tiers[j], service)
      {
        if tiers[i].kind.ServiceTier? && service in tiers[i].services {
          assert FirstServiceCard(tiers, service, i) && tiers[i] in tiers;
          return OverlayRates(base, tiers[i].price);
        }
      }
    }
    var tokens := ContextTokens(usage, base.accounting);
    var best: Option<nat> := None;
    for i := 0 to |tiers|
      invariant best.None? ==> forall j | 0 <= j < i :: !ContextMatch(tiers[j], tokens)
      invariant best.Some? ==> best.value < i && BestContextCard(tiers[..i], tokens, best.value)
    {
      ghost var seen := tiers[..i];
      assert forall j | 0 <= j < i :: seen[j] == tiers[j] == tiers[..i + 1][j];
      if tiers[i].kind.ContextTier? && 0 < tiers[i].threshold <= tokens {
        if best.None? || tiers[i].threshold > tiers[best.value].threshold {
          best := Some(i);
        }
      }
    }
    assert tiers[..|tiers|] == tiers;
    if best.Some? {
      assert BestContextCard(tiers, tokens, best.value) && tiers[best.value] in tiers;
      return OverlayRates(base, tiers[best.value].price);
    }
    return base;
  }

  // ServiceTiers: the order-preserving filter used for holds.
  ghost function OnlyService(tiers: seq<Tier>): seq<Tier> {
    if tiers == [] then []
    else
      var init := OnlyService(tiers[..|tiers| - 1]);
      if tiers[|tiers| - 1].kind.ServiceTier? then init + [tiers[|tiers| - 1]] else init
  }

  method ServiceTiers(tiers: seq<Tier>) returns (out: seq<Tier>)
    ensures out == OnlyService(tiers)
  {
    out := [];
    for i := 0 to |tiers|
      invariant out == OnlyService(tiers[..i])
    {
      assert tiers[..i + 1][..i] == tiers[..i];
      if tiers[i].kind.ServiceTier? {
        out := out + [tiers[i]];
      }
    }
    assert tiers[..|tiers|] == tiers;
  }

  lemma {:induction false} OnlyServiceMembers(tiers: seq<Tier>)
    ensures forall t :: t in OnlyService(tiers) <==> t in tiers && t.kind.ServiceTier?
  {
    if tiers != [] {
      var n := |tiers| - 1;
      OnlyServiceMembers(tiers[..n]);
      assert tiers == tiers[..n] + [tiers[n]];
    }
  }

  // The price of the first matching service card, if any.
  ghost function ServiceCard(tiers: seq<Tier>, service: string): Option<Price> {
    if tiers == [] then None
    else
      var earlier := ServiceCard(tiers[..|tiers| - 1], service);
      if earlier.Some? then earlier
      else if ServiceMatch(tiers[|tiers| - 1], service) then Some(tiers[|tiers| - 1].price)
      else None
  }

  lemma {:induction false} ServiceCardIsFirst(tiers: seq<Tier>, service: string)
    ensures ServiceCard(tiers, service).Some? <==> exists t | t in tiers :: ServiceMatch(t, service)
    ensures forall i: nat :: FirstServiceCard(tiers, service, i) ==> ServiceCard(tiers, service) == Some(tiers[i].price)
  {
    if tiers != [] {
      var n := |tiers| - 1;
      var init := tiers[..n];
      assert tiers == init + [tiers[n]];
      ServiceCardIsFirst(init, service);
      forall i: nat | FirstServiceCard(tiers, service, i)
        ensures ServiceCard(tiers, service) == Some(tiers[i].price)
      {
        if i < n {
          assert FirstServiceCard(init, service, i);
          assert tiers[i] in init;
        } else {
          forall t | t in init ensures !ServiceMatch(t, service) {
            var j :| 0 <= j < n && init[j] == t;
            assert tiers[j] == t;
          }
        }
      }
    }
  }

  lemma {:induction false} FilterKeepsServiceCard(tiers: seq<Tier>, service: string)
    ensures ServiceCard(OnlyService(tiers), service) == ServiceCard(tiers, service)
  {
    if tiers != [] {
      var n := |tiers| - 1;
      FilterKeepsServiceCard(tiers[..n], service);
      var init := OnlyService(tiers[..n]);
      if tiers[n].kind.ServiceTier? {
        assert (init + [tiers[n]])[..|init|] == init;
      }
    }
  }

  ghost predicate NoThresholdReached(tiers: seq<Tier>, usage: TokenUsage, mode: Accounting) {
    forall t | t in tiers :: !ContextMatch(t, ContextTokens(usage, mode))
  }

  // Below every context threshold, filtering to service cards does not change the card: the hold
  // and the settlement price the request from the same card even though the usage differs.
  lemma HoldAndSettlementUseOneCard(base: Price, tiers: seq<Tier>, estimate: TokenUsage, usage: TokenUsage,
                                    service: string, held: Price, settled: Price)
    requires NoThresholdReached(tiers, usage, base.accounting)
    requires Selected(base, OnlyService(tiers), estimate, service, held)
    requires Selected(base, tiers, usage, service, settled)
    ensures held == settled
  {
    var kept := OnlyService(tiers);
    OnlyServiceMembers(tiers);
    FilterKeepsServiceCard(tiers, service);
    ServiceCardIsFirst(kept, service);
    ServiceCardIsFirst(tiers, service);
    if !base.billing.PerImage? && (exists t | t in tiers :: ServiceMatch(t, service)) {
      var i: nat :| FirstServiceCard(kept, service, i) && held == OverlayRates(base, kept[i].price);
      var j: nat :| FirstServiceCard(tiers, service, j) && settled == OverlayRates(base, tiers[j].price);
    }
  }

  // Every card a context threshold could select overlays nothing on the base card.
  ghost predicate ContextIdle(base: Price, tiers: seq<Tier>, tokens: int64) {
    forall i: nat :: BestContextCard(tiers, tokens, i) ==> OverlayRates(base, tiers[i].price) == base
  }

  // For a token-priced plan without a matching service card, hold and settlement use one card if and
  // only if the actual prompt reaches no threshold, or the best card it reaches overlays nothing.
  lemma ThresholdSeparatesCards(base: Price, tiers: seq<Tier>, estimate: TokenUsage, usage: TokenUsage,
                                service: string, held: Price, settled: Price)
    requires !base.billing.PerImage? && forall t | t in tiers :: !ServiceMatch(t, service)
    requires Selected(base, OnlyService(tiers), estimate, service, held)
    requires Selected(base, tiers, usage, service, settled)
    ensures held == settled <==>
            NoThresholdReached(tiers, usage, base.accounting)
              || ContextIdle(base, tiers, ContextTokens(usage, base.accounting))
  {
    var tokens := ContextTokens(usage, base.accounting);
    OnlyServiceMembers(tiers);
    assert held == base;
    if exists t | t in tiers :: ContextMatch(t, tokens) {
      var i: nat :| BestContextCard(tiers, tokens, i) && settled == OverlayRates(base, tiers[i].price);
      forall j: nat | BestContextCard(tiers, tokens, j) ensures j == i {
      }
    }
  }

  // ---------- Settlement against hold ----------

  function Estimate(input: int64, output: int64): TokenUsage {
    TokenUsage(input, output, 0, 0, 0, 0, 0, 0)
  }

  ghost function CardLines(usage: TokenUsage, card: Price, anthropic: bool): seq<Line> {
    LinesOf(BillableOf(usage, ResolveAccounting(card.accounting, anthropic)), card)
  }

  ghost function CacheClasses(usage: TokenUsage): nat {
    (if CacheReadTokens(usage) > 0 then 1 else 0) + (if usage.cacheCreation > 0 then 1 else 0)
  }

  ghost predicate WithinEstimate(usage: TokenUsage, card: Price, input: int64, output: int64, anthropic: bool) {
    && usage.Valid() && card.Check().None? && !card.billing.PerImage?
    && ResolveAccounting(card.accounting, anthropic) == IncludesCache
    && usage.input <= input && usage.output <= output
    && CacheReadTokens(usage) as int + usage.cacheCreation as int <= usage.input as int
    && card.CacheReadPrice() <= card.input && card.cacheCreation <= card.input
  }

  lemma CeilingMonotone(m: nat, n: nat)
    requires m <= n
    ensures Ceiling(m, MTOK) <= Ceiling(n, MTOK)
  {
  }

  // Splitting a prompt into k+1 separately rounded classes costs at most k extra micro-dollars.
  lemma SplitRounding(a: nat, b: nat, c: nat)
    ensures Ceiling(a, MTOK) + Ceiling(b, MTOK) + Ceiling(c, MTOK)
              <= Ceiling(a + b + c, MTOK) + (if b > 0 then 1 else 0) + (if c > 0 then 1 else 0)
  {
  }

  lemma PromptSplit(i: nat, r: nat, c: nat, p: nat, pr: nat, pc: nat)
    requires pr <= p && pc <= p
    ensures i * p + r * pr + c * pc <= (i + r + c) * p
  {
    ScaleMonotone(r, r, pr, p);
    ScaleMonotone(c, c, pc, p);
    assert (i + r + c) * p == i * p + r * p + c * p;
  }

  lemma HoldCost(card: Price, input: int64, output: int64, anthropic: bool)
    requires input >= 0 && output >= 0 && card.NonNegative()
    requires ResolveAccounting(card.accounting, anthropic) == IncludesCache
    ensures var hold := CardLines(Estimate(input, output), card, anthropic);
            Billed(hold)
            && TotalCost(hold) == Ceiling(input as nat * card.input as nat, MTOK)
                                  + Ceiling(output as nat * card.output as nat, MTOK)
  {
    var hold := CardLines(Estimate(input, output), card, anthropic);
    assert hold[0] == Line(input, card.input) && hold[1] == Line(output, card.output);
    FourLines(hold);
    ZeroProduct(0, card.CacheReadPrice() as nat, MTOK);
    ZeroProduct(0, card.cacheCreation as nat, MTOK);
  }

  // The prompt's three classes at cache prices no higher than the input price.
  lemma PromptCost(i: nat, r: nat, c: nat, p: nat, pr: nat, pc: nat, input: nat)
    requires pr <= p && pc <= p && i + r + c <= input
    ensures Ceiling(i * p, MTOK) + Ceiling(r * pr, MTOK) + Ceiling(c * pc, MTOK)
              <= Ceiling(input * p, MTOK) + (if r > 0 then 1 else 0) + (if c > 0 then 1 else 0)
  {
    PromptSplit(i, r, c, p, pr, pc);
    ScaleMonotone(i + r + c, input, p, p);
    var x, y, z := i * p, r * pr, c * pc;
    assert r == 0 ==> y == 0;
    assert c == 0 ==> z == 0;
    SplitRounding(x, y, z);
    CeilingMonotone(x + y + z, input * p);
  }

  // Actual usage within the estimate never costs more than the hold, except for one rounding unit
  // per cache class that is present.
  lemma SettlementWithinHold(usage: TokenUsage, card: Price, input: int64, output: int64, anthropic: bool)
    requires WithinEstimate(usage, card, input, output, anthropic)
    ensures var actual, hold := CardLines(usage, card, anthropic), CardLines(Estimate(input, output), card, anthropic);
            Billed(actual) && Billed(hold) && TotalCost(actual) <= TotalCost(hold) + CacheClasses(usage)
  {
    HoldCost(card, input, output, anthropic);
    var actual := CardLines(usage, card, anthropic);
    FourLines(actual);
    BillableConservesPrompt(usage);
    PromptCost(actual[0].tokens as nat, actual[2].tokens as nat, actual[3].tokens as nat,
               card.input as nat, card.CacheReadPrice() as nat, card.cacheCreation as nat, input as nat);
    ScaleMonotone(usage.output as nat, output as nat, card.output as nat, card.output as nat);
    CeilingMonotone(usage.output as nat * card.output as nat, output as nat * card.output as nat);
  }

  // The whole path: the hold priced by BuildReservePlan and the settlement priced from the final
  // usage differ by at most two micro-dollars, and by nothing without cache tokens.
  lemma SettlementVersusHold(base: Price, tiers: seq<Tier>, usage: TokenUsage, input: int64, output: int64,
                             service: string, anthropic: bool, held: Price, settled: Price)
    requires Selected(base, OnlyService(tiers), Estimate(input, output), service, held)
    requires Selected(base, tiers, usage, service, settled)
    requires NoThresholdReached(tiers, usage, base.accounting)
    requires WithinEstimate(usage, held, input, output, anthropic)
    ensures var hold, cost := ChargeFor(Estimate(input, output), held, anthropic), ChargeFor(usage, settled, anthropic);
            hold.Ok? && cost.Ok? ==>
              && cost.value <= hold.value + 2
              && cost.value <= hold.value + CacheClasses(usage)
              && (CacheReadTokens(usage) == 0 && usage.cacheCreation == 0 ==> cost.value <= hold.value)
  {
    HoldAndSettlementUseOneCard(base, tiers, Estimate(input, output), usage, service, held, settled);
    SettlementWithinHold(usage, held, input, output, anthropic);
    var fixed := held.(accounting := ResolveAccounting(held.accounting, anthropic));
    assert LinesOf(BillableOf(usage, ResolveAccounting(fixed.accounting, false)), fixed)
      == CardLines(usage, held, anthropic);
    assert LinesOf(BillableOf(Estimate(input, output), ResolveAccounting(fixed.accounting, false)), fixed)
        == CardLines(Estimate(input, output), held, anthropic);
  }

  // One micro-dollar per million tokens for the prompt and both cache classes.
  const UNIT_CARD: Price := Price(1, 0, 0, 0, 1, 1, IncludesCache, PerToken, 0)

  // The bound of two is reached on the whole path: three prompt tokens, two of them cached in
  // different classes, under one base card.
  lemma TwoIsReached()
    ensures var usage := TokenUsage(3, 0, 0, 0, 1, 1, 0, 0);
            && Selected(UNIT_CARD, OnlyService([]), Estimate(3, 0), "", UNIT_CARD)
              && Selected(UNIT_CARD, [], usage, "", UNIT_CARD)
            && NoThresholdReached([], usage, UNIT_CARD.accounting) && WithinEstimate(usage, UNIT_CARD, 3, 0, false)
            && ChargeFor(Estimate(3, 0), UNIT_CARD, false) == Ok(1) && ChargeFor(usage, UNIT_CARD, false) == Ok(3)
  {
    var usage := TokenUsage(3, 0, 0, 0, 1, 1, 0, 0);
    NoTiersKeepBase(UNIT_CARD, Estimate(3, 0), "");
    NoTiersKeepBase(UNIT_CARD, usage, "");
    UnitCharge(Estimate(3, 0), 3, 0, 0);
    UnitCharge(usage, 1, 1, 1);
  }

  lemma UnitCharge(usage: TokenUsage, input: int64, read: int64, creation: int64)
    requires usage.Valid() && usage.output == 0 && usage.reasoning == 0
    requires 0 <= input <= 3 && 0 <= read <= 1 && 0 <= creation <= 1
    requires LinesOf(BillableOf(usage, IncludesCache), UNIT_CARD)
             == [Line(input, 1), Line(0, 0), Line(read, 1), Line(creation, 1)]
    ensures ChargeFor(usage, UNIT_CARD, false) == Ok((if input > 0 then 1 else 0) + read as int + creation as int)
  {
    assert UNIT_CARD.(accounting := IncludesCache) == UNIT_CARD;
    FourLines(LinesOf(BillableOf(usage, IncludesCache), UNIT_CARD));
  }

  lemma NoTiersKeepBase(base: Price, usage: TokenUsage, service: string)
    ensures OnlyService([]) == [] && Selected(base, [], usage, service, base)
  {
  }
}
