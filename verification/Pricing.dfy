/** The cost estimate of a list of recorded model calls, in exact arithmetic. */
module Pricing {
  import opened Collections
  import opened Results

  /** Rates for a million tokens. A missing cache rate falls back to the input rate. */
  datatype ModelPrice = ModelPrice(
    input: real,
    output: real,
    cachedInput: Option<real>,
    cacheCreation: Option<real>)

  type Catalog = map<string, ModelPrice>

  datatype Usage = Usage(input: int, output: int, cachedInput: int, cacheCreation: int)

  datatype Call = Call(model: string, usage: Usage)

  function Min(a: int, b: int): int { if b < a then b else a }

  function Max(a: int, b: int): int { if b > a then b else a }

  /** The input tokens of a call by the rate they are billed at. */
  datatype Billed = Billed(regular: int, cached: int, creation: int)

  function Bill(u: Usage): Billed {
    var cached := Min(u.cachedInput, u.input);
    var creation := Min(u.cacheCreation, Max(u.input - cached, 0));
    Billed(Max(u.input - cached - creation, 0), cached, creation)
  }

  function RateOr(rate: Option<real>, fallback: real): real {
    if rate.Some? then rate.value else fallback
  }

  function Times(tokens: int, rate: real): real { tokens as real * rate }

  function Price(p: ModelPrice, b: Billed, output: int): real {
    ( Times(b.regular, p.input)
    + Times(b.cached, RateOr(p.cachedInput, p.input))
    + Times(b.creation, RateOr(p.cacheCreation, p.input))
    + Times(output, p.output)) / 1000000.0
  }

  function CallPrice(p: ModelPrice, u: Usage): real { Price(p, Bill(u), u.output) }

  predicate Priced(catalog: Catalog, calls: seq<Call>) {
    forall call :: call in calls ==> call.model in catalog
  }

  /** What each call adds to an estimate. */
  function CallPrices(catalog: Catalog): Call -> real {
    (call: Call) => if call.model in catalog then CallPrice(catalog[call.model], call.usage) else 0.0
  }

  function Sum(price: Call -> real, calls: seq<Call>): real {
    if calls == [] then 0.0 else price(calls[0]) + Sum(price, calls[1..])
  }

  function Estimate(catalog: Catalog, calls: seq<Call>): Option<real> {
    if Priced(catalog, calls) then Some(Sum(CallPrices(catalog), calls)) else None
  }

  method EstimateCalls(catalog: Catalog, calls: seq<Call>) returns (estimate: Option<real>)
    ensures estimate == Estimate(catalog, calls)
    ensures estimate == None <==> exists call :: call in calls && call.model !in catalog
  {
    var total := 0.0;
    for i := 0 to |calls|
      invariant Priced(catalog, calls[..i])
      invariant total == Sum(CallPrices(catalog), calls[..i])
    {
      var call := calls[i];
      assert call in calls;
      if call.model !in catalog { return None; }
      var charge := Charge(catalog[call.model], call.usage);
      SumOfConcat(CallPrices(catalog), calls[..i], [call]);
      assert calls[..i + 1] == calls[..i] + [call];
      total := total + charge;
    }
    assert calls[..|calls|] == calls;
    return Some(total);
  }

  /** The body of the loop: what one call adds to the total. */
  method Charge(price: ModelPrice, usage: Usage) returns (charge: real)
    ensures charge == CallPrice(price, usage)
  {
    var cachedTokens := Min(usage.cachedInput, usage.input);
    var cacheCreationTokens := Min(usage.cacheCreation, Max(usage.input - cachedTokens, 0));
    var regularInputTokens := Max(usage.input - cachedTokens - cacheCreationTokens, 0);
    var cachedRate := if price.cachedInput.Some? then price.cachedInput.value else price.input;
    var cacheCreationRate := if price.cacheCreation.Some? then price.cacheCreation.value else price.input;
    charge := (regularInputTokens as real * price.input
             + cachedTokens as real * cachedRate
             + cacheCreationTokens as real * cacheCreationRate
             + usage.output as real * price.output) / 1000000.0;
  }

  /** A single call with consistent counters costs its plain, cached, cache-creating and output tokens at their rates. */
  lemma SingleCallCosts(catalog: Catalog, call: Call, rates: ModelPrice)
    requires call.model in catalog && catalog[call.model] == rates
    requires var u := call.usage; u.cachedInput <= u.input && 0 <= u.cacheCreation <= u.input - u.cachedInput
    ensures var u := call.usage;
            var cachedRate := if rates.cachedInput.Some? then rates.cachedInput.value else rates.input;
            var creationRate := if rates.cacheCreation.Some? then rates.cacheCreation.value else rates.input;
            var estimate := Estimate(catalog, [call]);
            && estimate.Some?
            && estimate.value * 1000000.0
            == (u.input - u.cachedInput - u.cacheCreation) as real * rates.input
             + u.cachedInput as real * cachedRate
             + u.cacheCreation as real * creationRate
             + u.output as real * rates.output
  {
    var u := call.usage;
    OneCallEstimate(catalog, call);
    var regular := u.input - u.cachedInput - u.cacheCreation;
    assert Bill(u) == Billed(regular, u.cachedInput, u.cacheCreation);
    var cachedRate := if rates.cachedInput.Some? then rates.cachedInput.value else rates.input;
    var creationRate := if rates.cacheCreation.Some? then rates.cacheCreation.value else rates.input;
    assert RateOr(rates.cachedInput, rates.input) == cachedRate;
    assert RateOr(rates.cacheCreation, rates.input) == creationRate;
    var a, b := Times(regular, rates.input), Times(u.cachedInput, cachedRate);
    var c, d := Times(u.cacheCreation, creationRate), Times(u.output, rates.output);
    assert CallPrice(rates, u) == (a + b + c + d) / 1000000.0;
    assert a == regular as real * rates.input;
    assert b == u.cachedInput as real * cachedRate;
    assert c == u.cacheCreation as real * creationRate;
    assert d == u.output as real * rates.output;
    assert Estimate(catalog, [call]).value == (a + b + c + d) / 1000000.0;
  }

  lemma OneCallEstimate(catalog: Catalog, call: Call)
    ensures Estimate(catalog, [call])
         == if call.model in catalog then Some(CallPrice(catalog[call.model], call.usage)) else None
  {
    var prices := CallPrices(catalog);
    assert [call][1..] == [];
    assert Sum(prices, [call]) == prices(call) + Sum(prices, []);
    assert call in [call];
  }

  /**
   Counters that exceed the input are cut: an estimate with them is the estimate with the
   cached tokens cut to the input and the cache-creating tokens cut to what is left.
   */
  lemma ExcessCountersAreCut(catalog: Catalog, call: Call)
    requires call.usage.cachedInput >= 0 && call.usage.cacheCreation >= 0 && call.usage.input >= 0
    ensures var u := call.usage;
            var cached := if u.cachedInput <= u.input then u.cachedInput else u.input;
            var creation := if cached + u.cacheCreation <= u.input then u.cacheCreation else u.input - cached;
            Estimate(catalog, [call]) == Estimate(catalog, [Call(call.model, Usage(u.input, u.output, cached, creation))])
  {
    var u := call.usage;
    var cached := if u.cachedInput <= u.input then u.cachedInput else u.input;
    var creation := if cached + u.cacheCreation <= u.input then u.cacheCreation else u.input - cached;
    var cut := Call(call.model, Usage(u.input, u.output, cached, creation));
    assert Bill(u) == Bill(cut.usage);
    OneCallEstimate(catalog, call);
    OneCallEstimate(catalog, cut);
  }

  lemma {:induction false} SumOfConcat(price: Call -> real, a: seq<Call>, b: seq<Call>)
    ensures Sum(price, a + b) == Sum(price, a) + Sum(price, b)
  {
    if a == [] {
      assert a + b == b;
    } else {
      SumOfConcat(price, a[1..], b);
      assert (a + b)[1..] == a[1..] + b;
    }
  }

  /** Two lists billed together cost what they cost apart, and are priced only if both are. */
  lemma EstimateIsAdditive(catalog: Catalog, a: seq<Call>, b: seq<Call>)
    ensures var (x, y) := (Estimate(catalog, a), Estimate(catalog, b));
            Estimate(catalog, a + b) == if x.Some? && y.Some? then Some(x.value + y.value) else None
  {
    if Priced(catalog, a) && Priced(catalog, b) {
      SumOfConcat(CallPrices(catalog), a, b);
    } else {
      var call :| (call in a || call in b) && call.model !in catalog;
      assert call in a + b;
    }
  }

  lemma SumWithout(price: Call -> real, calls: seq<Call>, call: Call) returns (rest: seq<Call>)
    requires call in calls
    ensures Sum(price, calls) == price(call) + Sum(price, rest)
    ensures multiset(rest) == multiset(calls) - multiset{call}
  {
    var k :| 0 <= k < |calls| && calls[k] == call;
    rest := calls[..k] + calls[k + 1..];
    WithoutOne(calls, k);
    SumOfConcat(price, calls[..k], calls[k..]);
    SumOfConcat(price, calls[..k], calls[k + 1..]);
    assert calls == calls[..k] + calls[k..] && calls[k..][1..] == calls[k + 1..];
  }

  lemma {:induction false} SumIgnoresOrder(price: Call -> real, a: seq<Call>, b: seq<Call>)
    requires multiset(a) == multiset(b)
    ensures Sum(price, a) == Sum(price, b)
  {
    if a == [] {
      assert |multiset(b)| == |b|;
    } else {
      assert a[0] in multiset(b);
      WithoutOne(a, 0);
      assert a[..0] + a[1..] == a[1..];
      var rest := SumWithout(price, b, a[0]);
      SumIgnoresOrder(price, a[1..], rest);
    }
  }

  /** The estimate depends on which calls were made, not on their order. */
  lemma EstimateIgnoresOrder(catalog: Catalog, a: seq<Call>, b: seq<Call>)
    requires multiset(a) == multiset(b)
    ensures Estimate(catalog, a) == Estimate(catalog, b)
  {
    assert forall call :: call in a <==> call in multiset(a);
    assert forall call :: call in b <==> call in multiset(b);
    if Priced(catalog, a) {
      SumIgnoresOrder(CallPrices(catalog), a, b);
    }
  }

  /** Whatever counters a provider reports, every input token is billed exactly once. */
  lemma EveryTokenIsBilledOnce(u: Usage)
    ensures var b := Bill(u);
            && b.regular + b.cached + b.creation == u.input
            && b.regular >= 0 && b.cached <= u.cachedInput && b.creation <= u.cacheCreation
    ensures u.input >= 0 && u.cachedInput >= 0 && u.cacheCreation >= 0 ==>
              Bill(u).cached >= 0 && Bill(u).creation >= 0
  {
  }

  /** Anthropic reports plain, cache-read and cache-creation tokens apart; the adapter adds them up. */
  function NormalisedUsage(plain: int, cacheRead: int, cacheCreation: int, output: int): Usage {
    Usage(plain + cacheRead + cacheCreation, output, cacheRead, cacheCreation)
  }

  /** Billing undoes the normalisation: the classes are the provider's counters again. */
  lemma BillRecoversTheCounters(plain: int, cacheRead: int, cacheCreation: int, output: int)
    ensures Bill(NormalisedUsage(plain, cacheRead, cacheCreation, output)) == Billed(plain, cacheRead, cacheCreation)
       <==> plain >= 0 && plain + cacheCreation >= 0
  {
  }

  /** And normalising what was billed gives back a consistent usage record. */
  lemma NormaliseRecoversTheUsage(u: Usage)
    ensures var b := Bill(u);
            (NormalisedUsage(b.regular, b.cached, b.creation, u.output) == u
             <==> u.cachedInput <= u.input && u.cachedInput + u.cacheCreation <= u.input)
  {
  }

  /**
   One more input token read from, or written to, the cache moves one token from the
   input rate to that rate, and changes nothing else.
   */
  lemma CacheTokensMoveRates(p: ModelPrice, u: Usage)
    requires u.cacheCreation >= 0 && u.cachedInput + u.cacheCreation < u.input
    ensures CallPrice(p, u.(cachedInput := u.cachedInput + 1))
         == CallPrice(p, u) + (RateOr(p.cachedInput, p.input) - p.input) / 1000000.0
    ensures CallPrice(p, u.(cacheCreation := u.cacheCreation + 1))
         == CallPrice(p, u) + (RateOr(p.cacheCreation, p.input) - p.input) / 1000000.0
  {
    OneMore(u.cachedInput, RateOr(p.cachedInput, p.input));
    OneMore(u.cacheCreation, RateOr(p.cacheCreation, p.input));
    OneMore(u.input - u.cachedInput - u.cacheCreation - 1, p.input);
  }

  lemma OneMore(tokens: int, rate: real)
    ensures Times(tokens + 1, rate) == Times(tokens, rate) + rate
  {
    assert (tokens + 1) as real == tokens as real + 1.0;
  }

  predicate Admitted(p: ModelPrice) {
    && p.input >= 0.0 && p.output >= 0.0
    && RateOr(p.cachedInput, p.input) >= 0.0 && RateOr(p.cacheCreation, p.input) >= 0.0
  }

  predicate NonNegative(u: Usage) {
    u.input >= 0 && u.output >= 0 && u.cachedInput >= 0 && u.cacheCreation >= 0
  }

  /** If all cache rates lie between low and high, each call costs between its input at low and at high. */
  lemma CallPriceIsBounded(p: ModelPrice, u: Usage, low: real, high: real)
    requires NonNegative(u)
    requires low <= p.input <= high
    requires low <= RateOr(p.cachedInput, p.input) <= high
    requires low <= RateOr(p.cacheCreation, p.input) <= high
    ensures (Times(u.input, low) + Times(u.output, p.output)) / 1000000.0 <= CallPrice(p, u)
    ensures CallPrice(p, u) <= (Times(u.input, high) + Times(u.output, p.output)) / 1000000.0
  {
    var b := Bill(u);
    var cached, creation := RateOr(p.cachedInput, p.input), RateOr(p.cacheCreation, p.input);
    EveryTokenIsBilledOnce(u);
    Between(b.regular, low, p.input, high);
    Between(b.cached, low, cached, high);
    Between(b.creation, low, creation, high);
    Regroup(b.regular, b.cached, b.creation, low);
    Regroup(b.regular, b.cached, b.creation, high);
  }

  lemma Between(tokens: int, low: real, rate: real, high: real)
    requires tokens >= 0 && low <= rate <= high
    ensures Times(tokens, low) <= Times(tokens, rate) <= Times(tokens, high)
  {
    assert tokens as real * (high - rate) >= 0.0 && tokens as real * (rate - low) >= 0.0;
  }

  lemma Regroup(a: int, b: int, c: int, rate: real)
    ensures Times(a, rate) + Times(b, rate) + Times(c, rate) == Times(a + b + c, rate)
  {
    assert (a + b + c) as real == a as real + b as real + c as real;
  }

  /** With the rates a catalogue admits, an estimate over real counters is never negative. */
  lemma {:induction false} EstimateIsNonNegative(catalog: Catalog, calls: seq<Call>)
    requires forall model :: model in catalog ==> Admitted(catalog[model])
    requires forall call :: call in calls ==> NonNegative(call.usage)
    ensures Estimate(catalog, calls).Some? ==> Estimate(catalog, calls).value >= 0.0
  {
    if calls != [] && Priced(catalog, calls) {
      EstimateIsNonNegative(catalog, calls[1..]);
      assert calls[0] in calls;
      CallPriceIsNonNegative(catalog[calls[0].model], calls[0].usage);
      assert CallPrices(catalog)(calls[0]) >= 0.0;
      assert Estimate(catalog, calls[1..]) == Some(Sum(CallPrices(catalog), calls[1..]));
    }
  }

  lemma CallPriceIsNonNegative(p: ModelPrice, u: Usage)
    requires Admitted(p) && NonNegative(u)
    ensures CallPrice(p, u) >= 0.0
  {
    EveryTokenIsBilledOnce(u);
    assert Times(u.output, p.output) >= 0.0;
    CallPriceIsBounded(p, u, 0.0, Max3(p.input, RateOr(p.cachedInput, p.input), RateOr(p.cacheCreation, p.input)));
    assert Times(u.input, 0.0) == 0.0;
  }

  function Max3(a: real, b: real, c: real): real {
    if a >= b && a >= c then a else if b >= c then b else c
  }
}
