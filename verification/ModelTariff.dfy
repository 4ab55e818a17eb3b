/** Exact USD arithmetic of the model gateway: tariffs, the worst case a request
    reserves, and the cost a usage report is charged.

    A price is an integer count of 10^-18 USD per million tokens (`usd` admits at most 18
    decimals); a cost is an integer count of 10^-24 USD, so that dividing by one million
    tokens is exact. */
module ModelTariff {
  import opened Sums

  const PRICE_LIMIT: int := 1_000_000_000_000_000_000_000_000_000_000  // 10^12 USD
  const COST_LIMIT: int := 1_000_000_000_000_000_000_000_000_000_000_000_000  // 10^12 USD, as a cost
  const FIFTY_DIGITS: int := 100_000_000_000_000_000_000_000_000_000_000_000_000_000_000_000_000

  datatype Tariff = Tariff(model: string, currency: string, input: int, cached: int, write: int, output: int,
                           maxInput: int, maxOutput: int)

  const MODEL := "gpt-5.6-luna"

  predicate UsdAmount(price: int) {
    0 <= price < PRICE_LIMIT
  }

  /** What `tariff_values` lets through. */
  predicate ValidTariff(t: Tariff) {
    && t.model == MODEL && t.currency == "USD"
    && 8192 <= t.maxInput <= 200000 && 1 <= t.maxOutput <= 4096
    && UsdAmount(t.input) && UsdAmount(t.cached) && UsdAmount(t.write) && UsdAmount(t.output)
  }

  function Max(a: int, b: int): int {
    if a >= b then a else b
  }

  /** The hold: every input token at the dearest input price, every output token used. */
  function WorstCase(t: Tariff): int {
    t.maxInput * Max(t.input, Max(t.cached, t.write)) + t.maxOutput * t.output
  }

  /** Provider JSON is untyped: a counter may be absent or no integer at all. */
  datatype Count = NoInt | Int(n: int)
  datatype Lifetime = NoLifetime | BadLifetime | Lifetime(ttl12h: Count, ttl30m: Count)
  datatype Details = BadDetails | Details(cached: Count, writes: Count, lifetime: Lifetime)
  datatype Usage = BadUsage | Usage(input: Count, output: Count, details: Details)

  datatype Charge = Cost(amount: int) | UsageUnknown | BoundExceeded

  predicate Counted(c: Count) {
    c.Int? && c.n >= 0
  }

  /** `cost_for_usage`, its requirements in the source's order. */
  function CostForUsage(u: Usage, t: Tariff): Charge {
    if u.BadUsage? || u.details.BadDetails? then UsageUnknown
    else if !(Counted(u.input) && Counted(u.output) && Counted(u.details.cached) && Counted(u.details.writes)) then
      UsageUnknown
    else
      var incoming, outgoing, cached, writes := u.input.n, u.output.n, u.details.cached.n, u.details.writes.n;
      if incoming > t.maxInput || outgoing > t.maxOutput then BoundExceeded
      else if writes != 0 && t.write <= 0 then UsageUnknown
      else if cached + writes > incoming then UsageUnknown
      else if !LifetimeAccepted(u.details.lifetime, writes) then UsageUnknown
      else Cost((incoming - cached - writes) * t.input + cached * t.cached + writes * t.write + outgoing * t.output)
  }

  predicate LifetimeAccepted(l: Lifetime, writes: int) {
    l.NoLifetime? || (l.Lifetime? && l.ttl12h == Int(0) && l.ttl30m == Int(writes))
  }

  lemma MulMono(a: int, b: int, c: int, d: int)
    requires 0 <= a <= c && 0 <= b <= d
    ensures 0 <= a * b <= c * d
  {
    assert a * b <= c * b;
    assert c * b <= c * d;
  }

  /** No accepted usage costs more than was reserved, so the overrun branch after
      settlement has no input. */
  lemma CostWithinWorstCase(u: Usage, t: Tariff)
    requires ValidTariff(t) && CostForUsage(u, t).Cost?
    ensures 0 <= CostForUsage(u, t).amount <= WorstCase(t)
  {
    var incoming, outgoing, cached, writes := u.input.n, u.output.n, u.details.cached.n, u.details.writes.n;
    var plain := incoming - cached - writes;
    var top := Max(t.input, Max(t.cached, t.write));
    MulMono(plain, t.input, plain, top);
    MulMono(cached, t.cached, cached, top);
    MulMono(writes, t.write, writes, top);
    MulMono(outgoing, t.output, t.maxOutput, t.output);
    MulMono(incoming, top, t.maxInput, top);
    assert plain * top + cached * top + writes * top == incoming * top;
  }

  /** One token of a call, by how it is priced. */
  datatype Token = Plain | FromCache | IntoCache | Answered

  function CountOf(token: Token): Token -> int {
    (x: Token) => if x == token then 1 else 0
  }

  function PriceIn(t: Tariff): Token -> int {
    (x: Token) =>
      match x
      case Plain => t.input
      case FromCache => t.cached
      case IntoCache => t.write
      case Answered => t.output
  }

  function InputTokens(tokens: seq<Token>): int {
    SumBy(tokens, CountOf(Plain)) + SumBy(tokens, CountOf(FromCache)) + SumBy(tokens, CountOf(IntoCache))
  }

  /** The usage report of a call that consumed these tokens. */
  function Report(tokens: seq<Token>, l: Lifetime): Usage {
    Usage(Int(InputTokens(tokens)), Int(SumBy(tokens, CountOf(Answered))),
          Details(Int(SumBy(tokens, CountOf(FromCache))), Int(SumBy(tokens, CountOf(IntoCache))), l))
  }

  lemma {:induction false} PricesPerKind(tokens: seq<Token>, t: Tariff)
    ensures SumBy(tokens, PriceIn(t))
         == SumBy(tokens, CountOf(Plain)) * t.input + SumBy(tokens, CountOf(FromCache)) * t.cached
          + SumBy(tokens, CountOf(IntoCache)) * t.write + SumBy(tokens, CountOf(Answered)) * t.output
    decreases |tokens|
  {
    if tokens != [] {
      var front, x := tokens[..|tokens| - 1], tokens[|tokens| - 1];
      PricesPerKind(front, t);
      Distribute(t.input, SumBy(front, CountOf(Plain)), CountOf(Plain)(x));
      Distribute(t.cached, SumBy(front, CountOf(FromCache)), CountOf(FromCache)(x));
      Distribute(t.write, SumBy(front, CountOf(IntoCache)), CountOf(IntoCache)(x));
      Distribute(t.output, SumBy(front, CountOf(Answered)), CountOf(Answered)(x));
    }
  }

  /** Whatever tokens a call consumed, it is charged the sum of their own prices, or nothing:
      beyond a bound, with an unpriced cache write, or with a contradicted lifetime. */
  lemma {:induction false} EveryTokenPaysItsPrice(tokens: seq<Token>, l: Lifetime, t: Tariff)
    requires ValidTariff(t)
    ensures CostForUsage(Report(tokens, l), t)
         == if InputTokens(tokens) > t.maxInput || SumBy(tokens, CountOf(Answered)) > t.maxOutput then BoundExceeded
            else if IntoCache in tokens && t.write == 0 then UsageUnknown
            else if !LifetimeAccepted(l, SumBy(tokens, CountOf(IntoCache))) then UsageUnknown
            else Cost(SumBy(tokens, PriceIn(t)))
  {
    PricesPerKind(tokens, t);
    SumNonNegative(tokens, CountOf(Plain));
    SumNonNegative(tokens, CountOf(FromCache));
    SumNonNegative(tokens, CountOf(Answered));
    CountIsPositive(tokens, IntoCache);
  }

  lemma {:induction false} CountIsPositive(tokens: seq<Token>, x: Token)
    ensures SumBy(tokens, CountOf(x)) >= 0 && (SumBy(tokens, CountOf(x)) > 0 <==> x in tokens)
    decreases |tokens|
  {
    if tokens != [] {
      CountIsPositive(tokens[..|tokens| - 1], x);
      assert tokens == tokens[..|tokens| - 1] + [tokens[|tokens| - 1]];
    }
  }

  predicate Told(c: Count) {
    c.Int? && c.n >= 0
  }

  /** Why a usage report has no cost: beyond the tariff's bounds; or a counter missing or below
      zero, more cached and written tokens than input, a write without a price, or lifetime
      details that do not agree with the writes. */
  lemma CostIsRefusedExactly(u: Usage, t: Tariff)
    requires ValidTariff(t)
    ensures
      var told := u.Usage? && u.details.Details? && Told(u.input) && Told(u.output) && Told(u.details.cached)
                  && Told(u.details.writes);
      if told && (u.input.n > t.maxInput || u.output.n > t.maxOutput) then CostForUsage(u, t) == BoundExceeded
      else if !told || u.details.cached.n + u.details.writes.n > u.input.n
              || (u.details.writes.n > 0 && t.write == 0)
              || (u.details.lifetime != NoLifetime && u.details.lifetime != Lifetime(Int(0), u.details.writes))
      then CostForUsage(u, t) == UsageUnknown
      else CostForUsage(u, t).Cost?
  {}

  /** The reservation is no larger than it has to be: some accepted usage costs all of it. */
  lemma WorstCaseIsReached(t: Tariff) returns (u: Usage)
    requires ValidTariff(t)
    ensures CostForUsage(u, t) == Cost(WorstCase(t))
  {
    var none, all := Int(0), Int(t.maxInput);
    var top := Max(t.input, Max(t.cached, t.write));
    var cached, writes := none, none;
    if t.input == top {
    } else if t.cached == top {
      cached := all;
    } else {
      writes := all;
    }
    u := Usage(all, Int(t.maxOutput), Details(cached, writes, NoLifetime));
  }

  /** The four products of an accepted cost. */
  function Products(u: Usage, t: Tariff): seq<int>
    requires CostForUsage(u, t).Cost?
  {
    var incoming, outgoing, cached, writes := u.input.n, u.output.n, u.details.cached.n, u.details.writes.n;
    [(incoming - cached - writes) * t.input, cached * t.cached, writes * t.write, outgoing * t.output]
  }

  /** Decimal precision 50 rounds nothing: every product and every sum, in whatever order, of
      the cost and of the hold is an integer count of 10^-24 USD with at most 36 digits. */
  lemma FiftyDigitsSuffice(u: Usage, t: Tariff)
    requires ValidTariff(t)
    ensures 0 <= WorstCase(t) < COST_LIMIT < FIFTY_DIGITS
    ensures 0 <= t.maxInput * Max(t.input, Max(t.cached, t.write)) < COST_LIMIT
    ensures 0 <= t.maxOutput * t.output < COST_LIMIT
    ensures CostForUsage(u, t).Cost? ==>
      var ps := Products(u, t);
      && CostForUsage(u, t).amount == ps[0] + ps[1] + ps[2] + ps[3] < COST_LIMIT
      && forall i :: 0 <= i < |ps| ==> 0 <= ps[i] < COST_LIMIT
  {
    var top := Max(t.input, Max(t.cached, t.write));
    MulMono(t.maxInput, top, 200000, PRICE_LIMIT);
    MulMono(t.maxOutput, t.output, 4096, PRICE_LIMIT);
    if CostForUsage(u, t).Cost? {
      CostWithinWorstCase(u, t);
      var incoming, cached, writes := u.input.n, u.details.cached.n, u.details.writes.n;
      MulMono(incoming - cached - writes, t.input, 200000, PRICE_LIMIT);
      MulMono(cached, t.cached, 200000, PRICE_LIMIT);
      MulMono(writes, t.write, 200000, PRICE_LIMIT);
      MulMono(u.output.n, t.output, 4096, PRICE_LIMIT);
    }
  }
}
