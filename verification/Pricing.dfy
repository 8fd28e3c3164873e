/** The cost of one AI call: usage is added up over the responses, priced once
    when the call ends, and rounded to a millionth of a dollar. */
module Pricing {
  import opened Wrappers

  // -------------------------------------------------------------------- rates

  datatype Rate =
    | PerToken(version: string, input: real, cached: real, output: real)
    | PerSecond(version: string, rate: real)

  /** Prices are not negative, and an input token costs something. */
  predicate ValidRate(r: Rate) {
    match r
    case PerToken(_, input, cached, output) => input > 0.0 && cached >= 0.0 && output >= 0.0
    case PerSecond(_, rate) => rate >= 0.0
  }

  const OPENAI_RATES: map<string, Rate> := map[
    "gpt-realtime-2.1" := PerToken("openai:gpt-realtime-2.1:2026-09", 32.0, 0.4, 64.0),
    "gpt-realtime-2" := PerToken("openai:gpt-realtime-2:2026-09", 32.0, 0.4, 64.0),
    "gpt-realtime-1.5" := PerToken("openai:gpt-realtime-1.5:2026-09", 32.0, 0.4, 64.0),
    "gpt-realtime" := PerToken("openai:gpt-realtime:2026-09", 32.0, 0.4, 64.0),
    "gpt-realtime-2.1-mini" := PerToken("openai:gpt-realtime-2.1-mini:2026-09", 10.0, 0.3, 20.0),
    "gpt-realtime-mini" := PerToken("openai:gpt-realtime-mini:2026-09", 10.0, 0.3, 20.0),
    "gpt-live-1" := PerSecond("openai:gpt-live-1:2026-09", 0.05 / 60.0)
  ]

  const TWILIO_PER_MINUTE := 0.0034
  const TWILIO_VERSION := "twilio:sip_trunking_inbound_us_local:2026-09"
  const MILLION := 1000000.0

  /** Six decimals, a tie going up. */
  function RoundMoney(amount: real): real
    requires amount >= 0.0
  {
    (amount * MILLION + 0.5).Floor as real / MILLION
  }

  // -------------------------------------------------------------------- usage

  /** What one response reported, or a call's running totals. */
  datatype Usage = Usage(input: Option<nat>, output: Option<nat>, cached: Option<nat>)

  const NOTHING := Usage(None, None, None)

  function Plus(total: Option<nat>, more: Option<nat>): Option<nat> {
    if more.Some? then Some(total.GetOr(0) + more.value) else total
  }

  function Add(total: Usage, u: Usage): Usage {
    Usage(Plus(total.input, u.input), Plus(total.output, u.output), Plus(total.cached, u.cached))
  }

  function Total(us: seq<Usage>): Usage {
    if us == [] then NOTHING else Add(Total(us[..|us| - 1]), us[|us| - 1])
  }

  function Pos(n: int): nat {
    if n > 0 then n else 0
  }

  /** Input tokens not served from the cache, before and after clamping. */
  function Net(u: Usage): int {
    u.input.GetOr(0) - u.cached.GetOr(0)
  }

  function Price(tokens: int, perMillion: real): real {
    tokens as real * perMillion / MILLION
  }

  /** The exact price of this usage, before rounding. */
  function Amount(r: Rate, u: Usage): real
    requires r.PerToken?
  {
    Price(Pos(Net(u)), r.input) + Price(u.cached.GetOr(0), r.cached) + Price(u.output.GetOr(0), r.output)
  }

  function SumOfAmounts(r: Rate, us: seq<Usage>): real
    requires r.PerToken?
  {
    if us == [] then 0.0 else SumOfAmounts(r, us[..|us| - 1]) + Amount(r, us[|us| - 1])
  }

  function SumOfNets(us: seq<Usage>): int {
    if us == [] then 0 else SumOfNets(us[..|us| - 1]) + Pos(Net(us[|us| - 1]))
  }

  datatype Cost = Unpriced | Cost(amount: real, version: string)

  function OpenAICost(model: string, u: Usage, seconds: Option<nat>): (c: Cost)
    ensures c.Cost? ==> model in OPENAI_RATES && c.version == OPENAI_RATES[model].version
  {
    if model !in OPENAI_RATES then Unpriced
    else
      var r := OPENAI_RATES[model];
      RatesAreValid(model);
      match r
      case PerSecond(version, rate) =>
        if seconds.None? then Unpriced else Cost(RoundMoney(seconds.value as real * rate), version)
      case PerToken(version, _, _, _) =>
        if u == NOTHING then Unpriced
        else
          AmountNotNegative(r, u);
          Cost(RoundMoney(Amount(r, u)), version)
  }

  function TwilioCost(seconds: Option<nat>): Cost {
    if seconds.None? then Unpriced
    else Cost(RoundMoney(seconds.value as real / 60.0 * TWILIO_PER_MINUTE), TWILIO_VERSION)
  }

  lemma RatesAreValid(model: string)
    requires model in OPENAI_RATES
    ensures ValidRate(OPENAI_RATES[model])
  {
  }

  lemma ProductNotNegative(a: real, b: real)
    requires a >= 0.0 && b >= 0.0
    ensures a * b >= 0.0
  {
  }

  lemma AmountNotNegative(r: Rate, u: Usage)
    requires r.PerToken? && ValidRate(r)
    ensures Amount(r, u) >= 0.0
  {
    ProductNotNegative(Pos(Net(u)) as real, r.input);
    ProductNotNegative(u.cached.GetOr(0) as real, r.cached);
    ProductNotNegative(u.output.GetOr(0) as real, r.output);
  }

  /** Rounding moves an amount by half a millionth at most, and not below zero. */
  lemma RoundingError(amount: real)
    requires amount >= 0.0
    ensures RoundMoney(amount) >= 0.0
    ensures -0.0000005 <= RoundMoney(amount) - amount <= 0.0000005
  {
    var n := (amount * MILLION + 0.5).Floor;
    assert n as real <= amount * MILLION + 0.5 < n as real + 1.0;
    assert n >= 0;
  }

  /** Each kind of token has its own price: a further answer token costs the output
      rate, a further heard token the input rate, and one that turns out to be
      served from the cache the cached rate instead. */
  lemma OneMoreToken(r: Rate, input: nat, output: nat, cached: nat)
    requires r.PerToken? && cached <= input
    ensures var before := Amount(r, Usage(Some(input), Some(output), Some(cached)));
      && Amount(r, Usage(Some(input), Some(output + 1), Some(cached))) == before + r.output / MILLION
      && Amount(r, Usage(Some(input + 1), Some(output), Some(cached))) == before + r.input / MILLION
      && (cached < input ==>
            Amount(r, Usage(Some(input), Some(output), Some(cached + 1))) == before + (r.cached - r.input) / MILLION)
  {
    PriceAdds(output, 1, r.output);
    PriceAdds(input - cached, 1, r.input);
    PriceAdds(cached, 1, r.cached);
    PriceAdds(input - cached - 1, 1, r.input);
  }

  lemma NothingUsedCostsNothing(r: Rate)
    requires r.PerToken?
    ensures Amount(r, NOTHING) == 0.0 && Amount(r, Usage(Some(0), Some(0), Some(0))) == 0.0
  {
  }

  /** The figures of the price list, on calls of a million tokens of a kind and of
      one minute. */
  lemma PriceList()
    ensures var million, half := Some(1_000_000), Some(500_000);
      && (forall model :: model in {"gpt-realtime-2.1", "gpt-realtime-2", "gpt-realtime-1.5", "gpt-realtime"} ==>
            OpenAICost(model, Usage(million, million, half), None) == Cost(80.2, OPENAI_RATES[model].version))
      && (forall model :: model in {"gpt-realtime-2.1-mini", "gpt-realtime-mini"} ==>
            OpenAICost(model, Usage(million, million, half), None) == Cost(25.15, OPENAI_RATES[model].version))
      && OpenAICost("gpt-live-1", NOTHING, Some(60)) == Cost(0.05, OPENAI_RATES["gpt-live-1"].version)
      && TwilioCost(Some(60)) == Cost(0.0034, TWILIO_VERSION)
  {
    RoundedExactly(80_200_000, 80.2);
    RoundedExactly(25_150_000, 25.15);
    RoundedExactly(50_000, 0.05);
    RoundedExactly(3_400, 0.0034);
  }

  /** An amount of whole millionths is not rounded. */
  lemma RoundedExactly(millionths: nat, amount: real)
    requires amount == millionths as real / MILLION
    ensures RoundMoney(amount) == amount
  {
    assert amount * MILLION == millionths as real;
    assert (millionths as real + 0.5).Floor == millionths;
  }

  // ------------------------------------------------- once, or response by response

  /** Clamping the sum gives no more than summing the clamped figures, and the
      same exactly when all of them have one sign. */
  lemma {:induction false} NetsAddUp(us: seq<Usage>)
    ensures Pos(Net(Total(us))) <= SumOfNets(us)
    ensures Net(Total(us)) <= SumOfNets(us)
    ensures SumOfNets(us) == 0 <==> forall u :: u in us ==> Net(u) <= 0
    ensures SumOfNets(us) == Net(Total(us)) <==> forall u :: u in us ==> Net(u) >= 0
  {
    if us != [] {
      var front, last := us[..|us| - 1], us[|us| - 1];
      NetsAddUp(front);
      assert us == front + [last];
      assert Net(Total(us)) == Net(Total(front)) + Net(last);
    }
  }

  lemma PriceAdds(a: int, b: int, rate: real)
    ensures Price(a + b, rate) == Price(a, rate) + Price(b, rate)
  {
  }

  /** Pricing two usages apart or together differs only in the clamp. */
  lemma AmountAdds(r: Rate, t: Usage, u: Usage)
    requires r.PerToken?
    ensures Amount(r, t) + Amount(r, u) - Amount(r, Add(t, u))
      == Price(Pos(Net(t)) + Pos(Net(u)) - Pos(Net(Add(t, u))), r.input)
  {
    var both := Add(t, u);
    PriceAdds(t.cached.GetOr(0), u.cached.GetOr(0), r.cached);
    PriceAdds(t.output.GetOr(0), u.output.GetOr(0), r.output);
    PriceAdds(Pos(Net(t)), Pos(Net(u)), r.input);
    PriceAdds(Pos(Net(t)) + Pos(Net(u)) - Pos(Net(both)), Pos(Net(both)), r.input);
  }

  lemma {:induction false} SumIsPricedNets(r: Rate, us: seq<Usage>)
    requires r.PerToken?
    ensures SumOfAmounts(r, us) - Amount(r, Total(us)) == Price(SumOfNets(us) - Pos(Net(Total(us))), r.input)
  {
    if us != [] {
      var front, last := us[..|us| - 1], us[|us| - 1];
      SumIsPricedNets(r, front);
      AmountAdds(r, Total(front), last);
      PriceAdds(SumOfNets(front) - Pos(Net(Total(front))), Pos(Net(Total(front))) + Pos(Net(last)) - Pos(Net(Total(us))), r.input);
    }
  }

  /** A call priced once costs no more than its responses priced one by one. */
  lemma PricedOnceIsNoMore(r: Rate, us: seq<Usage>)
    requires r.PerToken? && ValidRate(r)
    ensures Amount(r, Total(us)) <= SumOfAmounts(r, us)
  {
    NetsAddUp(us);
    SumIsPricedNets(r, us);
    ProductNotNegative((SumOfNets(us) - Pos(Net(Total(us)))) as real, r.input);
  }

  /** It costs exactly the same when, and only when, no response reports more
      cached than input tokens, or none reports fewer. */
  lemma PricedOnceIsExactlyWhen(r: Rate, us: seq<Usage>)
    requires r.PerToken? && ValidRate(r)
    ensures Amount(r, Total(us)) == SumOfAmounts(r, us) <==>
      (forall u :: u in us ==> Net(u) >= 0) || (forall u :: u in us ==> Net(u) <= 0)
  {
    NetsAddUp(us);
    SumIsPricedNets(r, us);
    var gap := SumOfNets(us) - Pos(Net(Total(us)));
    if gap > 0 {
      assert gap as real * r.input > 0.0;
    }
  }

  /** One response with more cached than input tokens hides ten uncached tokens
      of the next one. */
  lemma MixedCallIsPricedLower(r: Rate)
    requires r.PerToken? && ValidRate(r)
    ensures var us := [Usage(Some(10), None, Some(20)), Usage(Some(20), None, Some(10))];
      Amount(r, Total(us)) < SumOfAmounts(r, us)
  {
    var one, two := Usage(Some(10), None, Some(20)), Usage(Some(20), None, Some(10));
    assert Net(one) < 0 < Net(two) && one in [one, two] && two in [one, two];
    PricedOnceIsExactlyWhen(r, [one, two]);
    PricedOnceIsNoMore(r, [one, two]);
  }

  /** What is stored for a per-token call is within half a millionth of the
      exact sum over its responses when no response reports more cached than
      input tokens, and never negative. */
  lemma StoredCostIsTheSum(model: string, us: seq<Usage>, seconds: Option<nat>)
    requires model in OPENAI_RATES && OPENAI_RATES[model].PerToken? && Total(us) != NOTHING
    requires forall u :: u in us ==> u.cached.GetOr(0) <= u.input.GetOr(0)
    ensures var c := OpenAICost(model, Total(us), seconds); var sum := SumOfAmounts(OPENAI_RATES[model], us);
      c.Cost? && c.amount >= 0.0 && -0.0000005 <= c.amount - sum <= 0.0000005
  {
    var r := OPENAI_RATES[model];
    RatesAreValid(model);
    PricedOnceIsExactlyWhen(r, us);
    AmountNotNegative(r, Total(us));
    RoundingError(Amount(r, Total(us)));
  }

  // ------------------------------------------------------------- one call's row

  class CallMetrics {
    var usage: Usage
    var seconds: Option<nat>
    var openai: Cost
    var twilio: Cost
    /** Every response recorded so far. */
    ghost var responses: seq<Usage>

    ghost predicate Valid()
      reads this
    {
      usage == Total(responses)
    }

    constructor ()
      ensures Valid() && responses == [] && seconds == None && openai == Unpriced && twilio == Unpriced
    {
      usage, seconds, openai, twilio, responses := NOTHING, None, Unpriced, Unpriced, [];
    }

    /** Each figure present is added to its running total. */
    method RecordUsage(u: Usage)
      requires Valid()
      modifies this`usage, this`responses
      ensures Valid() && responses == old(responses) + [u]
    {
      if u.input.Some? {
        usage := usage.(input := Some(usage.input.GetOr(0) + u.input.value));
      }
      if u.output.Some? {
        usage := usage.(output := Some(usage.output.GetOr(0) + u.output.value));
      }
      if u.cached.Some? {
        usage := usage.(cached := Some(usage.cached.GetOr(0) + u.cached.value));
      }
      responses := responses + [u];
      assert responses[..|responses| - 1] == old(responses);
    }

    /** A clock that ran backwards counts as no time; a call that cannot be
        priced keeps the figures it had. */
    method FinishCall(model: string, elapsed: int)
      requires Valid()
      modifies this`seconds, this`openai, this`twilio
      ensures Valid() && seconds == Some(Pos(elapsed)) && twilio == TwilioCost(seconds)
      ensures var c := OpenAICost(model, Total(responses), seconds); openai == if c.Cost? then c else old(openai)
    {
      seconds := Some(if elapsed > 0 then elapsed else 0);
      var c := OpenAICost(model, usage, seconds);
      if c.Cost? {
        openai := c;
      }
      twilio := TwilioCost(seconds);
    }
  }
}
