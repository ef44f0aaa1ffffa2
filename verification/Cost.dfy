/** openai_cost.py: conservative estimates and actual prices, in micro-dollars rounded up. */
module Cost {
  import opened Common
  import opened AgentModels

  /** Prices in thousandths of a micro-dollar per token (US$0.05 per million tokens is 50). */
  datatype Pricing = Pricing(input: nat, cachedInput: nat, output: nat)

  predicate MatchesModel(model: string, known: string) {
    model == known || known + "-" <= model
  }

  function PricingForModel(model: string): Reply<Pricing> {
    if MatchesModel(model, "gpt-5-nano") then Returned(Pricing(50, 5, 400))
    else if MatchesModel(model, "gpt-4.1-nano") then Returned(Pricing(100, 25, 400))
    else if MatchesModel(model, "gpt-4o-mini") then Returned(Pricing(150, 75, 600))
    else Raised(ValueError)
  }

  /** Exact price of a usage, in thousandths of a micro-dollar. */
  function ExactPrice(p: Pricing, u: Usage): nat {
    (u.inputTokens - u.cachedInputTokens) * p.input + u.cachedInputTokens * p.cachedInput + u.outputTokens * p.output
  }

  function RoundUp(thousandths: nat): nat { (thousandths + 999) / 1000 }

  function CostForUsage(model: string, usage: Usage): Reply<nat> {
    match PricingForModel(model)
    case Raised(e) => Raised(e)
    case Returned(p) => Returned(RoundUp(ExactPrice(p, usage)))
  }

  function ConservativeTokenEstimate(utf8Bytes: nat): nat { Max(1, (utf8Bytes + 2) / 3) }

  function EstimatedRunCost(model: string, utf8Bytes: nat, maxOutputTokens: nat): Reply<nat> {
    var input := ConservativeTokenEstimate(utf8Bytes);
    CostForUsage(model, TokenUsage(input, 0, maxOutputTokens, input + maxOutputTokens))
  }

  /** A usage the estimate was made for. */
  predicate WithinEstimate(usage: Usage, utf8Bytes: nat, maxOutputTokens: nat) {
    usage.inputTokens <= ConservativeTokenEstimate(utf8Bytes) && usage.outputTokens <= maxOutputTokens
  }

  lemma PriceMonotone(p: Pricing, u: Usage, v: Usage)
    requires p.cachedInput <= p.input
    requires u.inputTokens <= v.inputTokens && u.outputTokens <= v.outputTokens && v.cachedInputTokens == 0
    ensures ExactPrice(p, u) <= ExactPrice(p, v)
  {
    assert u.cachedInputTokens * p.cachedInput <= u.cachedInputTokens * p.input;
    assert (u.inputTokens - u.cachedInputTokens) * p.input + u.cachedInputTokens * p.input == u.inputTokens * p.input;
    assert u.inputTokens * p.input <= v.inputTokens * p.input;
    assert u.outputTokens * p.output <= v.outputTokens * p.output;
  }

  /** For every priced model, a usage within the estimate never costs more than was reserved, and what
      is charged exceeds the exact price by less than one micro-dollar. */
  lemma ReservationCoversCost(model: string, usage: Usage, utf8Bytes: nat, maxOutputTokens: nat)
    requires PricingForModel(model).Returned? && WithinEstimate(usage, utf8Bytes, maxOutputTokens)
    ensures CostForUsage(model, usage).Returned? && EstimatedRunCost(model, utf8Bytes, maxOutputTokens).Returned?
    ensures CostForUsage(model, usage).value <= EstimatedRunCost(model, utf8Bytes, maxOutputTokens).value
    ensures var exact := ExactPrice(PricingForModel(model).value, usage);
            exact <= 1000 * CostForUsage(model, usage).value < exact + 1000
  {
    var input := ConservativeTokenEstimate(utf8Bytes);
    var most: Usage := TokenUsage(input, 0, maxOutputTokens, input + maxOutputTokens);
    PriceMonotone(PricingForModel(model).value, usage, most);
  }

  const MILLION := 1000000

  function InputOnly(tokens: nat): Usage { TokenUsage(tokens, 0, 0, tokens) }
  function CachedOnly(tokens: nat): Usage { TokenUsage(tokens, tokens, 0, tokens) }
  function OutputOnly(tokens: nat): Usage { TokenUsage(0, 0, tokens, tokens) }

  /** A million tokens of fresh input, of cached input and of output cost these micro-dollars. */
  predicate PerMillion(model: string, input: nat, cached: nat, output: nat) {
    && CostForUsage(model, InputOnly(MILLION)) == Returned(input)
    && CostForUsage(model, CachedOnly(MILLION)) == Returned(cached)
    && CostForUsage(model, OutputOnly(MILLION)) == Returned(output)
  }

  lemma ListedNamesDiffer()
    ensures !MatchesModel("gpt-4.1-nano", "gpt-5-nano") && !MatchesModel("gpt-4o-mini", "gpt-5-nano")
    ensures !MatchesModel("gpt-4o-mini", "gpt-4.1-nano")
  {
    assert "gpt-4.1-nano"[4] == '4' && ("gpt-5-nano" + "-")[4] == '5';
    assert "gpt-4o-mini"[4] == '4' && "gpt-4o-mini"[5] == 'o' && ("gpt-4.1-nano" + "-")[5] == '.';
  }

  lemma PriceOfMillion(model: string, p: Pricing)
    requires PricingForModel(model) == Returned(p)
    ensures PerMillion(model, 1000 * p.input, 1000 * p.cachedInput, 1000 * p.output)
  {
    assert ExactPrice(p, InputOnly(MILLION)) == MILLION * p.input;
    assert ExactPrice(p, CachedOnly(MILLION)) == MILLION * p.cachedInput;
    assert ExactPrice(p, OutputOnly(MILLION)) == MILLION * p.output;
  }

  /** The published prices, in US dollars per million tokens: 0.05, 0.005 and 0.40 for gpt-5-nano; 0.10, 0.025
      and 0.40 for gpt-4.1-nano; 0.15, 0.075 and 0.60 for gpt-4o-mini. */
  lemma PublishedPrices()
    ensures PerMillion("gpt-5-nano", 50000, 5000, 400000)
    ensures PerMillion("gpt-4.1-nano", 100000, 25000, 400000)
    ensures PerMillion("gpt-4o-mini", 150000, 75000, 600000)
  {
    ListedNamesDiffer();
    PriceOfMillion("gpt-5-nano", Pricing(50, 5, 400));
    PriceOfMillion("gpt-4.1-nano", Pricing(100, 25, 400));
    PriceOfMillion("gpt-4o-mini", Pricing(150, 75, 600));
  }

  /** A dated snapshot of gpt-5-nano costs what gpt-5-nano costs, and likewise for every listed name. */
  lemma SnapshotsArePriced(model: string, known: string)
    requires known == "gpt-5-nano" || known == "gpt-4.1-nano" || known == "gpt-4o-mini"
    requires known + "-" <= model
    ensures PricingForModel(model) == PricingForModel(known)
  {
    ListedNamesDiffer();
    assert model[..|known| + 1] == known + "-";
    assert model[4] == known[4] && model[5] == known[5];
    assert ("gpt-5-nano" + "-")[4] == '5' && ("gpt-4.1-nano" + "-")[5] == '.' && ("gpt-4.1-nano" + "-")[4] == '4';
    assert "gpt-4o-mini"[5] == 'o' && "gpt-4.1-nano"[4] == '4' && "gpt-4o-mini"[4] == '4' && "gpt-5-nano"[4] == '5';
  }

  /** The estimate is the least number of tokens, and at least one, at three bytes or more to each. */
  lemma EstimateCoversBytes(utf8Bytes: nat)
    ensures var tokens := ConservativeTokenEstimate(utf8Bytes);
            1 <= tokens && utf8Bytes <= 3 * tokens && (tokens == 1 || 3 * (tokens - 1) < utf8Bytes)
  {}
}
