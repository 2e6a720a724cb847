// Integer pricing (internal/money/money.go). Amounts and token counts are int64 values;
// because `int64` is a newtype, every method body below is also proved free of wrap-around.
module Money {
  import opened Base

  const MAX_INT64: int := 0x7FFF_FFFF_FFFF_FFFF
  const MTOK: int := 1_000_000

  newtype int64 = x: int | -0x8000_0000_0000_0000 <= x <= 0x7FFF_FFFF_FFFF_FFFF

  datatype MoneyError = NegativeValue | Overflow | UnknownAccounting | UnknownBilling

  datatype Accounting = UnsetAccounting | ExcludesCache | IncludesCache | OtherAccounting

  datatype Billing = UnsetBilling | PerToken | PerImage | OtherBilling

  datatype TokenUsage = TokenUsage(
    input: int64, output: int64, reasoning: int64, cached: int64,
    cacheRead: int64, cacheCreation: int64, images: int64, reportedTotal: int64)
  {
    predicate Valid() {
      && input >= 0 && output >= 0 && reasoning >= 0 && cached >= 0
      && cacheRead >= 0 && cacheCreation >= 0 && images >= 0 && reportedTotal >= 0
    }
  }

  datatype Price = Price(
    input: int64, output: int64, reasoning: int64, cached: int64,
    cacheRead: int64, cacheCreation: int64,
    accounting: Accounting, billing: Billing, perImage: int64)
  {
    predicate NonNegative() {
      && input >= 0 && output >= 0 && reasoning >= 0 && cached >= 0
      && cacheRead >= 0 && cacheCreation >= 0 && perImage >= 0
    }

    function Check(): Option<MoneyError> {
      if !NonNegative() then Some(NegativeValue)
      else if billing.OtherBilling? then Some(UnknownBilling)
      else if accounting.OtherAccounting? then Some(UnknownAccounting)
      else None
    }

    // The read price falls back to the legacy cached price.
    function CacheReadPrice(): int64 {
      if cacheRead == 0 then cached else cacheRead
    }
  }

  datatype Billable = Billable(input: int64, output: int64, cacheRead: int64, cacheCreation: int64)

  // ---------- Exact arithmetic the int64 code is measured against ----------

  // r is the ceiling of n/d.
  ghost predicate IsCeiling(r: int, n: int, d: int) {
    (r - 1) * d < n <= r * d
  }

  lemma CeilingUnique(r: int, s: int, n: int, d: int)
    requires d > 0 && IsCeiling(r, n, d) && IsCeiling(s, n, d)
    ensures r == s
  {
    if r < s {
      LessOneTimes(r, s, d);
    } else if s < r {
      LessOneTimes(s, r, d);
    }
  }

  lemma LessOneTimes(x: int, y: int, d: int)
    requires x < y && d > 0
    ensures x * d <= (y - 1) * d
  {
    assert (y - 1 - x) * d >= 0;
    assert (y - 1 - x) * d == (y - 1) * d - x * d;
  }

  ghost function Ceiling(n: nat, d: nat): (r: nat)
    requires d > 0
    ensures IsCeiling(r, n, d)
  {
    var q := n / d;
    assert n == q * d + n % d;
    if n % d == 0 then
      assert (q - 1) * d == q * d - d;
      q
    else
      assert (q + 1) * d == q * d + d;
      q + 1
  }

  // The intermediate product that can overflow although the result would fit.
  ghost predicate SpuriousOverflow(a: nat, b: nat, d: nat)
    requires d > 0
  {
    a % d * b > MAX_INT64
  }

  lemma SplitProduct(a: nat, b: nat, d: nat)
    requires d > 0
    ensures a * b == a / d * b * d + a % d * b
  {
    var q, m := a / d, a % d;
    assert a == q * d + m;
    assert a * b == (q * d + m) * b;
    assert (q * d + m) * b == q * d * b + m * b;
    assert q * d * b == q * b * d;
  }

  lemma ScaleMonotone(x: nat, y: nat, p: nat, q: nat)
    requires x <= y && p <= q
    ensures x * p <= y * q
  {
    assert (y - x) * p >= 0 && y * (q - p) >= 0;
    assert (y - x) * p == y * p - x * p && y * (q - p) == y * q - y * p;
  }

  // x > limit / b, the guard the code uses, decides x * b > limit.
  lemma QuotientGuard(x: nat, b: nat, limit: nat)
    requires b > 0
    ensures x > limit / b <==> x * b > limit
  {
    var k := limit / b;
    var rest := limit % b;
    assert limit == k * b + rest;
    if x > k {
      ScaleMonotone(k + 1, x, b, b);
      assert (k + 1) * b == k * b + b;
    } else {
      ScaleMonotone(x, k, b, b);
    }
  }

  lemma ScaledAtLeast(q: nat, d: nat)
    requires d > 0
    ensures q <= q * d
  {
    assert q * (d - 1) >= 0;
    assert q * (d - 1) == q * d - q;
  }

  lemma QuotientBounds(n: nat, d: nat)
    requires d > 0
    ensures 0 <= n / d <= n
    ensures n % d != 0 ==> n / d < n
  {
    var q, m := n / d, n % d;
    assert n == q * d + m;
    ScaledAtLeast(q, d);
  }

  lemma CeilingByCases(n: nat, d: nat)
    requires d > 0
    ensures Ceiling(n, d) == if n % d != 0 then n / d + 1 else n / d
  {
  }

  // The end of mulDivCeil: the rounded-up remainder added to the whole part.
  method AddRounded(result: int64, fraction: int64, divisor: int64) returns (r: Result<int64, MoneyError>)
    requires result >= 0 && fraction >= 0 && divisor > 0
    ensures var sum := result as int + Ceiling(fraction as nat, divisor as nat);
            if sum > MAX_INT64 then r == Err(Overflow) else r.Ok? && r.value as int == sum
  {
    QuotientBounds(fraction as nat, divisor as nat);
    CeilingByCases(fraction as nat, divisor as nat);
    var add := fraction / divisor;
    if fraction % divisor != 0 {
      add := add + 1;
    }
    if add > 0x7FFF_FFFF_FFFF_FFFF - result {
      return Err(Overflow);
    }
    return Ok(result + add);
  }

  // mulDivCeil: rounded-up a*b/divisor. It succeeds exactly when neither the result nor the
  // remainder product leaves int64, and then it is the mathematical ceiling.
  method MulDivCeil(a: int64, b: int64, divisor: int64) returns (r: Result<int64, MoneyError>)
    ensures a < 0 || b < 0 || divisor <= 0 ==> r == Err(NegativeValue)
    ensures a >= 0 && b >= 0 && divisor > 0 ==>
              if Ceiling(a as nat * b as nat, divisor as nat) > MAX_INT64
                 || SpuriousOverflow(a as nat, b as nat, divisor as nat)
              then r == Err(Overflow)
              else r.Ok? && r.value as int == Ceiling(a as nat * b as nat, divisor as nat)
  {
    if a < 0 || b < 0 || divisor <= 0 {
      return Err(NegativeValue);
    }
    ghost var ia: nat, ib: nat, d: nat := a as int, b as int, divisor as int;
    if a == 0 || b == 0 {
      ZeroProduct(ia, ib, d);
      return Ok(0);
    }
    var quotient, remainder := a / divisor, a % divisor;
    ghost var q: nat, m: nat := quotient as int, remainder as int;
    SplitCeiling(ia, ib, d);
    ghost var whole, part := q * ib, m * ib;
    QuotientGuard(q, ib, MAX_INT64);
    QuotientGuard(m, ib, MAX_INT64);
    if quotient > 0x7FFF_FFFF_FFFF_FFFF / b {
      return Err(Overflow);
    }
    var result := quotient * b;
    if remainder > 0x7FFF_FFFF_FFFF_FFFF / b {
      return Err(Overflow);
    }
    var fraction := remainder * b;
    assert fraction as int == part && result as int == whole;
    r := AddRounded(result, fraction, divisor);
  }

  lemma ZeroProduct(a: nat, b: nat, d: nat)
    requires d > 0 && (a == 0 || b == 0)
    ensures Ceiling(a * b, d) == 0 && !SpuriousOverflow(a, b, d)
  {
    assert a * b == 0;
    assert IsCeiling(0, 0, d);
    CeilingUnique(0, Ceiling(a * b, d), 0, d);
    assert a % d * b == 0;
  }

  lemma SplitCeiling(a: nat, b: nat, d: nat)
    requires d > 0
    ensures Ceiling(a * b, d) == a / d * b + Ceiling(a % d * b, d)
  {
    SplitProduct(a, b, d);
    var q, f := a / d * b, a % d * b;
    var c := Ceiling(f, d);
    assert (q + c - 1) * d == q * d + (c - 1) * d;
    assert (q + c) * d == q * d + c * d;
    CeilingUnique(q + c, Ceiling(a * b, d), a * b, d);
  }

  // With a price no larger than MaxInt64/(divisor-1) the only overflow is a real one.
  lemma NoSpuriousOverflow(a: nat, b: nat, d: nat)
    requires d > 1 && b <= MAX_INT64 / (d - 1)
    ensures !SpuriousOverflow(a, b, d)
  {
    var m := a % d;
    assert m <= d - 1;
    ScaleMonotone(m, d - 1, b, b);
    QuotientGuard(b, d - 1, MAX_INT64);
    assert b * (d - 1) == (d - 1) * b;
  }

  // The spurious overflow is real: a representable result is refused.
  lemma SpuriousOverflowHappens()
    ensures SpuriousOverflow(999_999, 10_000_000_000_000, 1_000_000)
    ensures Ceiling(999_999 * 10_000_000_000_000, 1_000_000) <= MAX_INT64
  {
    assert IsCeiling(9_999_990_000_000, 999_999 * 10_000_000_000_000, 1_000_000);
    CeilingUnique(9_999_990_000_000, Ceiling(999_999 * 10_000_000_000_000, 1_000_000), 999_999 * 10_000_000_000_000,
      1_000_000);
  }

  // ---------- Billable classes ----------

  // Empty modes are inferred from the model or provider; `anthropic` says it names Claude.
  function ResolveAccounting(mode: Accounting, anthropic: bool): Accounting {
    match mode
    case ExcludesCache => ExcludesCache
    case IncludesCache => IncludesCache
    case _ => if anthropic then ExcludesCache else IncludesCache
  }

  function SaturatingAdd(left: int64, right: int64): (r: int64)
    ensures r as int == Min(MAX_INT64, Max(0, left as int) + Max(0, right as int))
  {
    var l := if left < 0 then 0 else left;
    var r := if right < 0 then 0 else right;
    if l > 0x7FFF_FFFF_FFFF_FFFF - r then 0x7FFF_FFFF_FFFF_FFFF else l + r
  }

  function CacheReadTokens(usage: TokenUsage): int64 {
    if usage.cacheRead == 0 then usage.cached else usage.cacheRead
  }

  function BillableOf(usage: TokenUsage, mode: Accounting): Billable {
    var cacheRead := CacheReadTokens(usage);
    var cacheTokens := SaturatingAdd(cacheRead, usage.cacheCreation);
    var input :=
      if mode == IncludesCache then
        if usage.input >= 0 && usage.input > cacheTokens then usage.input - cacheTokens else 0
      else usage.input;
    Billable(input, usage.output, cacheRead, usage.cacheCreation)
  }

  // No token is billed twice and none is dropped: with cache counted inside the input, the
  // three prompt classes add up to the larger of the input and the cache total.
  lemma BillableConservesPrompt(usage: TokenUsage)
    requires usage.Valid()
    ensures var b := BillableOf(usage, IncludesCache);
            b.input as int + b.cacheRead as int + b.cacheCreation as int
              == Max(usage.input as int, CacheReadTokens(usage) as int + usage.cacheCreation as int)
    ensures var b := BillableOf(usage, ExcludesCache);
            b.input as int + b.cacheRead as int + b.cacheCreation as int
              == usage.input as int + CacheReadTokens(usage) as int + usage.cacheCreation as int
  {
  }

  // ---------- Cost ----------

  datatype Line = Line(tokens: int64, price: int64)

  function LinesOf(b: Billable, p: Price): seq<Line> {
    [Line(b.input, p.input), Line(b.output, p.output),
     Line(b.cacheRead, p.CacheReadPrice()), Line(b.cacheCreation, p.cacheCreation)]
  }

  ghost predicate Billed(lines: seq<Line>) {
    forall i | 0 <= i < |lines| :: lines[i].tokens >= 0 && lines[i].price >= 0
  }

  ghost function LineCost(l: Line): nat
    requires l.tokens >= 0 && l.price >= 0
  {
    Ceiling(l.tokens as nat * l.price as nat, MTOK)
  }

  ghost predicate LineSpurious(l: Line)
    requires l.tokens >= 0 && l.price >= 0
  {
    SpuriousOverflow(l.tokens as nat, l.price as nat, MTOK)
  }

  ghost function TotalCost(lines: seq<Line>): nat
    requires Billed(lines)
  {
    if lines == [] then 0 else TotalCost(lines[..|lines| - 1]) + LineCost(lines[|lines| - 1])
  }

  lemma {:induction false} TotalCostMonotone(lines: seq<Line>, k: nat)
    requires Billed(lines) && k <= |lines|
    ensures TotalCost(lines[..k]) <= TotalCost(lines)
    decreases |lines| - k
  {
    if k < |lines| {
      assert lines[..k + 1][..k] == lines[..k];
      TotalCostMonotone(lines, k + 1);
    } else {
      assert lines[..k] == lines;
    }
  }

  lemma ProductPositive(x: nat, y: nat)
    requires x > 0 && y > 0
    ensures x * y > 0
  {
    ScaledAtLeast(x, y);
  }

  // What Cost and CostFor return, stated over the integers.
  ghost function Charge(usage: TokenUsage, price: Price): Result<int, MoneyError> {
    if !usage.Valid() then Err(NegativeValue)
    else if price.Check().Some? then Err(price.Check().value)
    else if price.billing.PerImage? then
      var images := if usage.images == 0 then 1 else usage.images as int;
      if images * price.perImage as int > MAX_INT64 then Err(Overflow) else Ok(images * price.perImage as int)
    else
      var lines := LinesOf(BillableOf(usage, ResolveAccounting(price.accounting, false)), price);
      if TotalCost(lines) > MAX_INT64 || exists l | l in lines :: LineSpurious(l) then Err(Overflow)
      else Ok(TotalCost(lines))
  }

  method CostPerImage(images: int64, price: int64) returns (r: Result<int64, MoneyError>)
    ensures images < 0 || price < 0 ==> r == Err(NegativeValue)
    ensures images >= 0 && price >= 0 ==>
              var n := if images == 0 then 1 else images as int;
              if n * price as int > MAX_INT64 then r == Err(Overflow)
              else r.Ok? && r.value as int == n * price as int
  {
    if images < 0 || price < 0 {
      return Err(NegativeValue);
    }
    var n := if images <= 0 then 1 else images;
    if price == 0 {
      return Ok(0);
    }
    QuotientGuard(price as nat, n as nat, MAX_INT64);
    assert n as int * price as int == price as int * n as int;
    if price > 0x7FFF_FFFF_FFFF_FFFF / n {
      return Err(Overflow);
    }
    return Ok(n * price);
  }

  // Cost: the loop over the four classes, with its early exits.
  method Cost(usage: TokenUsage, price: Price) returns (r: Result<int64, MoneyError>)
    ensures match Charge(usage, price)
            case Err(e) => r == Err(e)
            case Ok(v) => r.Ok? && r.value as int == v
  {
    if !usage.Valid() {
      return Err(NegativeValue);
    }
    var bad := price.Check();
    if bad.Some? {
      return Err(bad.value);
    }
    if price.billing.PerImage? {
      r := CostPerImage(usage.images, price.perImage);
      return;
    }
    var lines := LinesOf(BillableOf(usage, ResolveAccounting(price.accounting, false)), price);
    assert Billed(lines);
    var total: int64 := 0;
    for i := 0 to |lines|
      invariant total >= 0 && total as int == TotalCost(lines[..i])
      invariant forall j | 0 <= j < i :: !LineSpurious(lines[j])
    {
      assert lines[..i + 1][..i] == lines[..i];
      TotalCostMonotone(lines, i + 1);
      var part := MulDivCeil(lines[i].tokens, lines[i].price, 1_000_000);
      if part.Err? {
        assert lines[i] in lines;
        return part;
      }
      if part.value > 0x7FFF_FFFF_FFFF_FFFF - total {
        return Err(Overflow);
      }
      total := total + part.value;
    }
    assert lines[..|lines|] == lines;
    return Ok(total);
  }

  // CostFor fixes the accounting mode from the model identity first.
  ghost function ChargeFor(usage: TokenUsage, price: Price, anthropic: bool): Result<int, MoneyError> {
    Charge(usage, price.(accounting := ResolveAccounting(price.accounting, anthropic)))
  }

  method CostFor(usage: TokenUsage, price: Price, anthropic: bool) returns (r: Result<int64, MoneyError>)
    ensures match ChargeFor(usage, price, anthropic)
            case Err(e) => r == Err(e)
            case Ok(v) => r.Ok? && r.value as int == v
  {
    r := Cost(usage, price.(accounting := ResolveAccounting(price.accounting, anthropic)));
  }

  // Whether cache tokens are counted inside the input: as the card says, and otherwise unless the model
  // or provider names Claude.
  predicate CountsCacheInside(price: Price, anthropic: bool) {
    price.accounting == IncludesCache || (price.accounting != ExcludesCache && !anthropic)
  }

  // The legacy `cached` fields stand in for absent cache reads.
  function ReadTokens(usage: TokenUsage): int {
    if usage.cacheRead != 0 then usage.cacheRead as int else usage.cached as int
  }

  function ReadPrice(price: Price): int {
    if price.cacheRead != 0 then price.cacheRead as int else price.cached as int
  }

  // The prompt tokens that are billed as input.
  function PromptTokens(usage: TokenUsage, price: Price, anthropic: bool): int {
    if CountsCacheInside(price, anthropic)
    then Max(0, usage.input as int - ReadTokens(usage) - usage.cacheCreation as int)
    else usage.input as int
  }

  // The exact price of a usage in millionths of a micro-dollar: prompt, output, cache reads and cache
  // writes, each at its own rate.
  function WeightedSum(usage: TokenUsage, price: Price, anthropic: bool): int {
    PromptTokens(usage, price, anthropic) * price.input as int + usage.output as int * price.output as int
    + ReadTokens(usage) * ReadPrice(price) + usage.cacheCreation as int * price.cacheCreation as int
  }

  // The same with each class rounded up to whole micro-dollars.
  ghost function RoundedSum(usage: TokenUsage, price: Price, anthropic: bool): int
    requires usage.Valid() && price.NonNegative()
  {
    Ceiling(PromptTokens(usage, price, anthropic) * price.input as int, 1_000_000)
    + Ceiling(usage.output as int * price.output as int, 1_000_000)
    + Ceiling(ReadTokens(usage) * ReadPrice(price), 1_000_000)
    + Ceiling(usage.cacheCreation as int * price.cacheCreation as int, 1_000_000)
  }

  lemma FourLines(lines: seq<Line>)
    requires |lines| == 4 && Billed(lines)
    ensures TotalCost(lines) == LineCost(lines[0]) + LineCost(lines[1]) + LineCost(lines[2]) + LineCost(lines[3])
  {
    var l3, l2, l1 := lines[..3], lines[..2], lines[..1];
    assert l3[..2] == l2 && l2[..1] == l1 && l1[..0] == [];
    assert TotalCost(l1) == TotalCost(l1[..0]) + LineCost(l1[0]);
    assert TotalCost(l2) == TotalCost(l1) + LineCost(lines[1]);
    assert TotalCost(l3) == TotalCost(l2) + LineCost(lines[2]);
  }

  lemma LinesAreClasses(usage: TokenUsage, price: Price, anthropic: bool)
    requires usage.Valid() && price.NonNegative()
    ensures var lines := LinesOf(BillableOf(usage, ResolveAccounting(price.accounting, anthropic)), price);
            && |lines| == 4 && Billed(lines)
            && lines[0].tokens as int == PromptTokens(usage, price, anthropic) && lines[0].price == price.input
            && lines[1] == Line(usage.output, price.output)
            && lines[2].tokens as int == ReadTokens(usage) && lines[2].price as int == ReadPrice(price)
            && lines[3] == Line(usage.cacheCreation, price.cacheCreation)
            && TotalCost(lines) == RoundedSum(usage, price, anthropic)
  {
    FourLines(LinesOf(BillableOf(usage, ResolveAccounting(price.accounting, anthropic)), price));
  }

  // The four lines of a card under the mode CostFor resolves.
  lemma ChargedLines(usage: TokenUsage, price: Price, anthropic: bool)
    requires usage.Valid() && price.NonNegative() && price.billing != OtherBilling && price.billing != PerImage
    ensures var lines := LinesOf(BillableOf(usage, ResolveAccounting(price.accounting, anthropic)), price);
            && Billed(lines) && TotalCost(lines) == RoundedSum(usage, price, anthropic)
            && ChargeFor(usage, price, anthropic)
               == if TotalCost(lines) > MAX_INT64 || exists l | l in lines :: LineSpurious(l) then Err(Overflow)
                  else Ok(TotalCost(lines))
  {
    var mode := ResolveAccounting(price.accounting, anthropic);
    var fixed := price.(accounting := mode);
    LinesAreClasses(usage, price, anthropic);
    assert LinesOf(BillableOf(usage, ResolveAccounting(fixed.accounting, false)), fixed)
        == LinesOf(BillableOf(usage, mode), price);
  }

  // A successful token charge is the rounded sum, within int64; any refusal is an overflow.
  lemma ChargeIsRoundedSum(usage: TokenUsage, price: Price, anthropic: bool)
    requires usage.Valid() && price.NonNegative() && price.billing != OtherBilling && price.billing != PerImage
    ensures var charge := ChargeFor(usage, price, anthropic);
            && (charge.Ok? ==> charge.value == RoundedSum(usage, price, anthropic) <= MAX_INT64)
            && (charge.Err? ==> charge.error == Overflow)
  {
    ChargedLines(usage, price, anthropic);
  }

  // Prices up to MaxInt64/999999 per million tokens make a refusal mean a real overflow.
  lemma ChargeRefusedOnlyOnOverflow(usage: TokenUsage, price: Price, anthropic: bool)
    requires usage.Valid() && price.NonNegative() && price.billing != OtherBilling && price.billing != PerImage
    requires price.input as int <= MAX_INT64 / 999_999 && price.output as int <= MAX_INT64 / 999_999
    requires ReadPrice(price) <= MAX_INT64 / 999_999 && price.cacheCreation as int <= MAX_INT64 / 999_999
    ensures ChargeFor(usage, price, anthropic).Err? <==> RoundedSum(usage, price, anthropic) > MAX_INT64
  {
    var lines := LinesOf(BillableOf(usage, ResolveAccounting(price.accounting, anthropic)), price);
    ChargedLines(usage, price, anthropic);
    forall l | l in lines ensures l.tokens >= 0 && l.price >= 0 && !LineSpurious(l) {
      NoSpuriousOverflow(l.tokens as nat, l.price as nat, MTOK);
    }
  }

  // A class with tokens and a price is never free.
  lemma PositiveUsageIsCharged(usage: TokenUsage, price: Price, anthropic: bool)
    requires ChargeFor(usage, price, anthropic).Ok? && !price.billing.PerImage?
    requires || (PromptTokens(usage, price, anthropic) > 0 && price.input > 0) || (usage.output > 0 && price.output > 0)
             || (ReadTokens(usage) > 0 && ReadPrice(price) > 0) || (usage.cacheCreation > 0 && price.cacheCreation > 0)
    ensures ChargeFor(usage, price, anthropic).value > 0
  {
    ChargeIsRoundedSum(usage, price, anthropic);
    if PromptTokens(usage, price, anthropic) > 0 && price.input > 0 {
      ProductPositive(PromptTokens(usage, price, anthropic), price.input as nat);
    } else if usage.output > 0 && price.output > 0 {
      ProductPositive(usage.output as nat, price.output as nat);
    } else if ReadTokens(usage) > 0 && ReadPrice(price) > 0 {
      ProductPositive(ReadTokens(usage), ReadPrice(price));
    } else {
      ProductPositive(usage.cacheCreation as nat, price.cacheCreation as nat);
    }
  }

  // A per-image card charges the images, at least one.
  lemma ImagesAreCharged(usage: TokenUsage, price: Price, anthropic: bool)
    requires usage.Valid() && price.NonNegative() && price.billing == PerImage
    ensures var v := (if usage.images > 0 then usage.images as int else 1) * price.perImage as int;
            ChargeFor(usage, price, anthropic) == if v > MAX_INT64 then Err(Overflow) else Ok(v)
  {
  }

  // A successful token charge is the exact price, rounded up by less than one micro-dollar per class.
  lemma ChargeIsExactUpToRounding(usage: TokenUsage, price: Price, anthropic: bool)
    requires ChargeFor(usage, price, anthropic).Ok? && !price.billing.PerImage?
    ensures var v := ChargeFor(usage, price, anthropic).value;
            WeightedSum(usage, price, anthropic) <= 1_000_000 * v < WeightedSum(usage, price, anthropic) + 4_000_000
  {
    ChargeIsRoundedSum(usage, price, anthropic);
  }

  // Cost on its own takes an unset mode for "inside"; an unknown mode it refuses.
  lemma CostIsCostFor(usage: TokenUsage, price: Price)
    ensures Charge(usage, price)
         == if usage.Valid() && price.NonNegative() && price.billing != OtherBilling
               && price.accounting == OtherAccounting
            then Err(UnknownAccounting) else ChargeFor(usage, price, false)
  {
    if price.Check().None? {
      var fixed := price.(accounting := ResolveAccounting(price.accounting, false));
      assert LinesOf(BillableOf(usage, ResolveAccounting(fixed.accounting, false)), fixed)
          == LinesOf(BillableOf(usage, ResolveAccounting(price.accounting, false)), price);
    }
  }

  // The refusals that do not depend on the amount, in the order the code makes them.
  lemma MalformedIsRefused(usage: TokenUsage, price: Price, anthropic: bool)
    ensures var negative := usage.input < 0 || usage.output < 0 || usage.reasoning < 0 || usage.cached < 0
                            || usage.cacheRead < 0 || usage.cacheCreation < 0 || usage.images < 0
                            || usage.reportedTotal < 0;
            var negativePrice := price.input < 0 || price.output < 0 || price.reasoning < 0 || price.cached < 0
                                 || price.cacheRead < 0 || price.cacheCreation < 0 || price.perImage < 0;
            if negative || negativePrice then ChargeFor(usage, price, anthropic) == Err(NegativeValue)
            else if price.billing == OtherBilling then ChargeFor(usage, price, anthropic) == Err(UnknownBilling)
            else ChargeFor(usage, price, anthropic).Ok? || ChargeFor(usage, price, anthropic) == Err(Overflow)
  {
  }
}
