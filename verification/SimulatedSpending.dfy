/** What simulated calls cost: without a key a provider answers with a simulation, whose token counts
    do not follow the ones the estimate assumes. */
module SimulatedSpending {
  import opened Aggregation
  import opened Budget
  import opened Metrics
  import opened Pricing
  import opened Records
  import opened Runner
  import opened Submit
  import opened Text

  const SIMULATED_COMPLETION: nat := 140
  /** What a provider allows when a job names no positive limit. */
  const FALLBACK_MAX_TOKENS: nat := 512

  /** Four tokens for every three words, but 15 for a short prompt. */
  function SimulatedPromptTokens(a: Alphabet, prompt: string): nat {
    var tokens := |Split(prompt, a.isSpace)| * 4 / 3;
    if tokens < 10 then 15 else tokens
  }

  function SimulatedCompletionTokens(maxTokens: int): (tokens: nat)
    ensures maxTokens <= 0 || maxTokens >= 140 ==> tokens == 140
    ensures 0 < maxTokens < 140 ==> tokens == maxTokens
  {
    var allowed := if maxTokens <= 0 then FALLBACK_MAX_TOKENS else maxTokens;
    if SIMULATED_COMPLETION > allowed then allowed else SIMULATED_COMPLETION
  }

  predicate Simulated(o: Outcome) {
    o.Response? && o.simulated
  }

  /** The simulation's answer to a prompt, whatever its text and latency. */
  predicate IsSimulation(o: Outcome, a: Alphabet, prompt: string, maxTokens: int) {
    && Simulated(o) && o.promptTokens == SimulatedPromptTokens(a, prompt)
    && o.completionTokens == SimulatedCompletionTokens(maxTokens)
  }

  /** Simulated responses come from the simulation only. */
  ghost predicate SimulatesAs(outcomes: seq<Outcome>, a: Alphabet, prompt: string, maxTokens: int) {
    forall i :: 0 <= i < |outcomes| && Simulated(outcomes[i]) ==> IsSimulation(outcomes[i], a, prompt, maxTokens)
  }

  // ---- when the budget chain covers simulated calls ----------------------------------------

  /** The chain's hypothesis holds of simulations exactly when the job names an output limit and a
      prompt has enough bytes for its words: 56 for up to seven words, and for more words four for
      each of their tokens but one. */
  lemma SimulationIsWithinIff(outcomes: seq<Outcome>, o: Outcome, a: Alphabet, prompt: string, bytes: nat,
                              maxTokens: int)
    requires o in outcomes && IsSimulation(o, a, prompt, maxTokens)
    requires forall x :: x in outcomes && x.Response? ==>
      IsSimulation(x, a, prompt, maxTokens) || WithinTokens([x], PromptTokens(bytes), maxTokens)
    ensures WithinTokens(outcomes, PromptTokens(bytes), maxTokens) <==>
      maxTokens > 0 &&
      var words := |Split(prompt, a.isSpace)|;
      if words <= 7 then bytes >= 56 else bytes >= 4 * (words * 4 / 3 - 1)
  {
    var words := |Split(prompt, a.isSpace)|;
    assert SimulatedPromptTokens(a, prompt) <= PromptTokens(bytes) <==>
      if words <= 7 then bytes >= 56 else bytes >= 4 * (words * 4 / 3 - 1);
    if SimulatedPromptTokens(a, prompt) <= PromptTokens(bytes) && maxTokens > 0 {
      forall x | x in outcomes && x.Response?
        ensures x.promptTokens <= PromptTokens(bytes) && x.completionTokens <= maxTokens
      {
        assert x in [x];
      }
    }
  }

  // ---- what a job with simulated calls costs -----------------------------------------------

  function InputRates(rates: Rates, models: seq<string>): real
    requires rates.Valid()
  {
    if models == [] then 0.0
    else InputRates(rates, models[..|models| - 1]) + rates.CardOf(models[|models| - 1]).inputPerMillion
  }

  function OutputRates(rates: Rates, models: seq<string>): real
    requires rates.Valid()
  {
    if models == [] then 0.0
    else OutputRates(rates, models[..|models| - 1]) + rates.CardOf(models[|models| - 1]).outputPerMillion
  }

  lemma RatesAddUp(tokens: int, a: real, b: real)
    ensures TokenCost(tokens, a + b) == TokenCost(tokens, a) + TokenCost(tokens, b)
  {
  }

  /** The same tokens for every model cost them what they cost at the sums of the rates. */
  lemma {:induction false} CostIsLinear(rates: Rates, p: nat, models: seq<string>, m: int)
    requires rates.Valid()
    ensures EstimateOf(rates, p, models, m) ==
      TokenCost(p, InputRates(rates, models)) + TokenCost(m, OutputRates(rates, models))
  {
    if models != [] {
      var before, card := models[..|models| - 1], rates.CardOf(models[|models| - 1]);
      CostIsLinear(rates, p, before, m);
      RatesAddUp(p, InputRates(rates, before), card.inputPerMillion);
      RatesAddUp(m, OutputRates(rates, before), card.outputPerMillion);
    }
  }

  /** The models that answered with a simulation. */
  function SimulatedModels(models: seq<string>, outcomes: seq<Outcome>): seq<string>
    requires |models| == |outcomes|
  {
    if models == [] then []
    else
      var n := |models| - 1;
      var before := SimulatedModels(models[..n], outcomes[..n]);
      if Simulated(outcomes[n]) then before + [models[n]] else before
  }

  /** What the other calls stayed below the estimate. */
  function Saved(e: Setting, job: Job, models: seq<string>, outcomes: seq<Outcome>, p: nat, maxTokens: int): real
    requires e.rates.Valid() && |models| == |outcomes|
  {
    if models == [] then 0.0
    else
      var n := |models| - 1;
      Saved(e, job, models[..n], outcomes[..n], p, maxTokens) +
      if Simulated(outcomes[n]) then 0.0
      else CalculateCost(e.rates, models[n], p, maxTokens) - CostIfGood(Slot(e, job, models[n], outcomes[n]))
  }

  /** It is never negative when they report no more than assumed. */
  lemma {:induction false} OthersSave(e: Setting, job: Job, models: seq<string>, outcomes: seq<Outcome>, p: nat,
                                      maxTokens: int)
    requires e.rates.Valid() && |models| == |outcomes|
    requires forall i :: 0 <= i < |outcomes| && !Simulated(outcomes[i]) ==> WithinTokens([outcomes[i]], p, maxTokens)
    ensures Saved(e, job, models, outcomes, p, maxTokens) >= 0.0
  {
    if models != [] {
      var n := |models| - 1;
      OthersSave(e, job, models[..n], outcomes[..n], p, maxTokens);
      if !Simulated(outcomes[n]) {
        SlotWithinEstimate(e, job, models[n], outcomes[n], p, maxTokens);
      }
    }
  }

  ghost predicate ResultsOf(e: Setting, job: Job, rs: seq<ModelResult>, models: seq<string>, outcomes: seq<Outcome>)
    requires e.rates.Valid()
  {
    |rs| == |models| == |outcomes| && forall i :: 0 <= i < |rs| ==> rs[i] == Slot(e, job, models[i], outcomes[i])
  }

  lemma EstimateSnoc(rates: Rates, p: nat, models: seq<string>, model: string, m: int)
    requires rates.Valid()
    ensures EstimateOf(rates, p, models + [model], m) ==
      EstimateOf(rates, p, models, m) + CalculateCost(rates, model, p, m)
  {
    assert (models + [model])[..|models|] == models;
  }

  lemma SimulatedCost(e: Setting, job: Job, model: string, o: Outcome, a: Alphabet, maxTokens: int)
    requires e.rates.Valid() && IsSimulation(o, a, job.prompt, maxTokens)
    ensures CostIfGood(Slot(e, job, model, o)) ==
      CalculateCost(e.rates, model, SimulatedPromptTokens(a, job.prompt), SimulatedCompletionTokens(maxTokens))
  {
  }

  /** Estimate and spending differ by what the simulated calls' tokens make, and by what the others saved. */
  lemma {:induction false} SpendingSplits(e: Setting, job: Job, rs: seq<ModelResult>, models: seq<string>,
                                          outcomes: seq<Outcome>, a: Alphabet, p: nat, maxTokens: int)
    requires e.rates.Valid() && ResultsOf(e, job, rs, models, outcomes)
    requires SimulatesAs(outcomes, a, job.prompt, maxTokens)
    ensures var sims := SimulatedModels(models, outcomes);
      EstimateOf(e.rates, p, models, maxTokens) - SumOf(rs, CostIfGood) ==
      EstimateOf(e.rates, p, sims, maxTokens)
      - EstimateOf(e.rates, SimulatedPromptTokens(a, job.prompt), sims, SimulatedCompletionTokens(maxTokens))
      + Saved(e, job, models, outcomes, p, maxTokens)
  {
    if models != [] {
      var n := |models| - 1;
      SpendingSplits(e, job, rs[..n], models[..n], outcomes[..n], a, p, maxTokens);
      assert SumOf(rs, CostIfGood) == SumOf(rs[..n], CostIfGood) + CostIfGood(rs[n]);
      if Simulated(outcomes[n]) {
        var sims := SimulatedModels(models[..n], outcomes[..n]);
        SimulatedCost(e, job, models[n], outcomes[n], a, maxTokens);
        EstimateSnoc(e.rates, p, sims, models[n], maxTokens);
        EstimateSnoc(e.rates, SimulatedPromptTokens(a, job.prompt), sims, models[n],
                     SimulatedCompletionTokens(maxTokens));
      }
    }
  }

  lemma SequentiallyIsResults(e: Setting, job: Job, outcomes: seq<Outcome>)
    requires e.rates.Valid() && |outcomes| == |job.targetModels|
    ensures ResultsOf(e, job, Sequentially(e, job, job.targetModels, outcomes), job.targetModels, outcomes)
  {
    forall i | 0 <= i < |outcomes|
      ensures Sequentially(e, job, job.targetModels, outcomes)[i] == Slot(e, job, job.targetModels[i], outcomes[i])
    {
      SequentiallyAt(e, job, job.targetModels, outcomes, i);
    }
  }

  lemma PerMillion(x: real, rate: real)
    ensures 1_000_000.0 * ((x / 1_000_000.0) * rate) == x * rate
  {
  }

  lemma Compare(p: real, i: real, m: real, o: real, q: real, n: real, saved: real)
    ensures p * i + m * o <= q * i + n * o + saved <==> (p - q) * i <= (n - m) * o + saved
  {
    assert (p - q) * i == p * i - q * i;
    assert (n - m) * o == n * o - m * o;
  }

  /** At rates i and o, n - m tokens of output and what was saved pay for p - q tokens of prompt. */
  ghost predicate PaysFor(i: real, o: real, p: nat, m: nat, q: nat, n: nat, saved: real) {
    (p as real - q as real) * i <= (n as real - m as real) * o + 1_000_000.0 * saved
  }

  lemma CostsCompare(p: nat, m: nat, q: nat, n: nat, i: real, o: real, saved: real)
    ensures TokenCost(p, i) + TokenCost(m, o) <= TokenCost(q, i) + TokenCost(n, o) + saved <==>
      PaysFor(i, o, p, m, q, n, saved)
  {
    PerMillion(p as real, i);
    PerMillion(m as real, o);
    PerMillion(q as real, i);
    PerMillion(n as real, o);
    Compare(p as real, i, m as real, o, q as real, n as real, 1_000_000.0 * saved);
  }

  /** Between two estimates for the same models more prompt is weighed against more output. */
  lemma EstimatesCompare(rates: Rates, models: seq<string>, p: nat, m: nat, q: nat, n: int, saved: real)
    requires rates.Valid()
    ensures EstimateOf(rates, p, models, m) <= EstimateOf(rates, q, models, n) + saved <==>
      PaysFor(InputRates(rates, models), OutputRates(rates, models), p, m, q, AtLeastZero(n), saved)
  {
    var i, o := InputRates(rates, models), OutputRates(rates, models);
    CostIsLinear(rates, p, models, m);
    CostIsLinear(rates, q, models, n);
    assert TokenCost(n, o) == TokenCost(AtLeastZero(n), o);
    CostsCompare(p, m, q, AtLeastZero(n), i, o, saved);
    Substitute(EstimateOf(rates, p, models, m), TokenCost(p, i) + TokenCost(m, o),
               EstimateOf(rates, q, models, n), TokenCost(q, i) + TokenCost(AtLeastZero(n), o), saved,
               PaysFor(i, o, p, m, q, AtLeastZero(n), saved));
  }

  lemma Substitute(x: real, y: real, z: real, w: real, saved: real, c: bool)
    requires x == y && z == w && (y <= w + saved <==> c)
    ensures x <= z + saved <==> c
  {
  }

  /** A job stays within its estimate exactly when the output its simulated calls did not use, and what
      its other calls saved, pay for the prompt tokens the simulated ones reported in excess. */
  lemma SpendingWithinEstimateIff(e: Setting, job: Job, outcomes: seq<Outcome>, a: Alphabet, bytes: nat, maxTokens: int)
    requires e.rates.Valid() && |outcomes| == |job.targetModels|
    requires SimulatesAs(outcomes, a, job.prompt, maxTokens)
    ensures var p, spent := PromptTokens(bytes), SumOf(Sequentially(e, job, job.targetModels, outcomes), CostIfGood);
      (spent <= EstimateOf(e.rates, p, job.targetModels, maxTokens)) <==>
      var sims := SimulatedModels(job.targetModels, outcomes);
      PaysFor(InputRates(e.rates, sims), OutputRates(e.rates, sims),
              SimulatedPromptTokens(a, job.prompt), SimulatedCompletionTokens(maxTokens), p, AtLeastZero(maxTokens),
              Saved(e, job, job.targetModels, outcomes, p, maxTokens))
  {
    var models, p := job.targetModels, PromptTokens(bytes);
    SequentiallyIsResults(e, job, outcomes);
    SpendingSplits(e, job, Sequentially(e, job, models, outcomes), models, outcomes, a, p, maxTokens);
    EstimatesCompare(e.rates, SimulatedModels(models, outcomes), SimulatedPromptTokens(a, job.prompt),
                     SimulatedCompletionTokens(maxTokens), p, maxTokens,
                     Saved(e, job, models, outcomes, p, maxTokens));
  }

  ghost predicate AllSimulated(outcomes: seq<Outcome>, a: Alphabet, prompt: string, maxTokens: int) {
    forall i :: 0 <= i < |outcomes| ==> IsSimulation(outcomes[i], a, prompt, maxTokens)
  }

  lemma {:induction false} NoOthers(e: Setting, job: Job, models: seq<string>, outcomes: seq<Outcome>, p: nat,
                                    maxTokens: int)
    requires e.rates.Valid() && |models| == |outcomes| && forall i :: 0 <= i < |outcomes| ==> Simulated(outcomes[i])
    ensures SimulatedModels(models, outcomes) == models && Saved(e, job, models, outcomes, p, maxTokens) == 0.0
  {
    if models != [] {
      NoOthers(e, job, models[..|models| - 1], outcomes[..|models| - 1], p, maxTokens);
    }
  }

  /** A job of simulated calls is recorded with exactly this cost. */
  lemma SimulatedTotal(e: Setting, job: Job, outcomes: seq<Outcome>, a: Alphabet, maxTokens: int)
    requires e.rates.Valid() && |outcomes| == |job.targetModels| && AllSimulated(outcomes, a, job.prompt, maxTokens)
    ensures SumOf(Sequentially(e, job, job.targetModels, outcomes), CostIfGood) ==
      EstimateOf(e.rates, SimulatedPromptTokens(a, job.prompt), job.targetModels, SimulatedCompletionTokens(maxTokens))
  {
    NoOthers(e, job, job.targetModels, outcomes, 0, maxTokens);
    SequentiallyIsResults(e, job, outcomes);
    SpendingSplits(e, job, Sequentially(e, job, job.targetModels, outcomes), job.targetModels, outcomes, a, 0,
                   maxTokens);
  }

  /** And such a job stays within its estimate exactly when the output it did not use pays for the
      prompt tokens it reported in excess. */
  lemma SimulatedWithinEstimateIff(e: Setting, job: Job, outcomes: seq<Outcome>, a: Alphabet, bytes: nat,
                                   maxTokens: int)
    requires e.rates.Valid() && |outcomes| == |job.targetModels| && AllSimulated(outcomes, a, job.prompt, maxTokens)
    ensures var spent := SumOf(Sequentially(e, job, job.targetModels, outcomes), CostIfGood);
      (spent <= EstimateOf(e.rates, PromptTokens(bytes), job.targetModels, maxTokens)) <==>
      PaysFor(InputRates(e.rates, job.targetModels), OutputRates(e.rates, job.targetModels),
              SimulatedPromptTokens(a, job.prompt), SimulatedCompletionTokens(maxTokens),
              PromptTokens(bytes), AtLeastZero(maxTokens), 0.0)
  {
    SpendingWithinEstimateIff(e, job, outcomes, a, bytes, maxTokens);
    NoOthers(e, job, job.targetModels, outcomes, PromptTokens(bytes), maxTokens);
  }

  // ---- a job that costs more than its cap --------------------------------------------------

  /** One dear model, two bytes of prompt, little output, and exactly the estimate as budget. */
  function ShortRequest(key: string): Request {
    Request("", "hi", "", [key], 100, 0.001503, map[])
  }

  lemma ShortPrompt(rules: Rules)
    requires Ordinary(rules)
    ensures Plain("hi") && rules.bytes("hi") == 2 && SimulatedPromptTokens(rules.alphabet, "hi") == 15
  {
    assert IdChar('h') && IdChar('i');
    PlainIsKept(rules, "hi");
    SplitWord("hi", rules.alphabet.isSpace);
  }

  lemma OneName(rules: Rules, key: string)
    requires Ordinary(rules) && Plain(key) && 0 < |key| <= MAX_MODEL_ID
    ensures Tidy(rules, [key])
  {
    PlainIsKept(rules, key);
    assert IsTidy(rules, key);
  }

  lemma ShortRequestIsTidy(rules: Rules, serverCap: real, key: string)
    requires Ordinary(rules) && Plain(key) && 0 < |key| <= MAX_MODEL_ID && serverCap >= 0.001503
    ensures Acceptable(ShortRequest(key), rules, serverCap)
    ensures Normalized(ShortRequest(key), rules.alphabet) == ShortRequest(key)
  {
    ShortPrompt(rules);
    OneName(rules, key);
    TidyIsAcceptable(rules, serverCap, ShortRequest(key));
  }

  lemma ShortEstimate(rates: Rates, rules: Rules, key: string, p: nat)
    requires Prices(rates, rules, key)
    ensures EstimateOf(rates, p, [key], 100) == CalculateCost(rates, key, p, 100)
    ensures CalculateCost(rates, key, p, 100) == TokenCost(p, 3.00) + 0.0015
  {
    TopKeyBills(rates, rules, key, "");
    assert key + "" == key;
    assert [key][..0] == [];
  }

  lemma ShortRequestIsTakenOn(rates: Rates, rules: Rules, serverCap: real, key: string)
    requires Prices(rates, rules, key) && serverCap >= 0.001503
    ensures TakenOn(ShortRequest(key), rules, rates, serverCap)
    ensures Normalized(ShortRequest(key), rules.alphabet) == ShortRequest(key)
  {
    ShortRequestIsTidy(rules, serverCap, key);
    ShortPrompt(rules);
    ShortEstimate(rates, rules, key, 1);
  }

  /** Whatever the server's cap, if it allows the smallest of budgets: a job taken on whose recorded
      total exceeds its estimate and its own cap, because its one call was simulated. */
  lemma SimulatedJobExceedsCap(rules: Rules, e: Setting, serverCap: real, job: Job, outcomes: seq<Outcome>, key: string)
    requires Prices(e.rates, rules, key) && serverCap >= 0.001503
    requires job.targetModels == [key] && job.prompt == "hi"
    requires |outcomes| == 1 && AllSimulated(outcomes, rules.alphabet, job.prompt, 100)
    ensures TakenOn(ShortRequest(key), rules, e.rates, serverCap)
    ensures Normalized(ShortRequest(key), rules.alphabet) == ShortRequest(key)
    ensures SumOf(Sequentially(e, job, job.targetModels, outcomes), CostIfGood) > ShortRequest(key).budgetCapUSD
  {
    ShortRequestIsTakenOn(e.rates, rules, serverCap, key);
    ShortPrompt(rules);
    SimulatedTotal(e, job, outcomes, rules.alphabet, 100);
    ShortEstimate(e.rates, rules, key, 15);
  }
}
