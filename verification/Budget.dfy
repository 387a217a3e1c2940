/** The budget chain: what a job spends, its estimate, its own cap and the server's cap. */
module Budget {
  import opened Aggregation
  import opened Metrics
  import opened Ordering
  import opened Pricing
  import opened Records
  import opened Runner
  import opened Submit
  import opened Text

  // ---- spending stays below the estimate ---------------------------------------------------

  /** No call reports more prompt tokens than estimated or more output than it was allowed. */
  ghost predicate WithinTokens(outcomes: seq<Outcome>, promptTokens: nat, maxTokens: int) {
    forall o :: o in outcomes && o.Response? ==> o.promptTokens <= promptTokens && o.completionTokens <= maxTokens
  }

  lemma SlotWithinEstimate(e: Setting, job: Job, model: string, outcome: Outcome, promptTokens: nat, maxTokens: int)
    requires e.rates.Valid() && WithinTokens([outcome], promptTokens, maxTokens)
    ensures CostIfGood(Slot(e, job, model, outcome)) <= CalculateCost(e.rates, model, promptTokens, maxTokens)
  {
    assert outcome in [outcome];
    CostIsMonotone(e.rates, model, promptTokens, maxTokens, promptTokens, maxTokens);
    if outcome.Response? {
      CostIsMonotone(e.rates, model, outcome.promptTokens, outcome.completionTokens, promptTokens, maxTokens);
    }
  }

  lemma {:induction false} SumWithinEstimate(rates: Rates, rs: seq<ModelResult>, models: seq<string>,
                                             promptTokens: nat, maxTokens: int)
    requires rates.Valid() && |rs| == |models|
    requires forall i :: 0 <= i < |rs| ==> CostIfGood(rs[i]) <= CalculateCost(rates, models[i], promptTokens, maxTokens)
    ensures SumOf(rs, CostIfGood) <= EstimateOf(rates, promptTokens, models, maxTokens)
  {
    if rs != [] {
      var n := |rs| - 1;
      SumWithinEstimate(rates, rs[..n], models[..n], promptTokens, maxTokens);
    }
  }

  /** A job's recorded total never exceeds its estimate, whichever calls fail. */
  lemma SpendingWithinEstimate(e: Setting, job: Job, outcomes: seq<Outcome>, promptTokens: nat, maxTokens: int)
    requires e.rates.Valid() && |outcomes| == |job.targetModels| && WithinTokens(outcomes, promptTokens, maxTokens)
    ensures SumOf(Sequentially(e, job, job.targetModels, outcomes), CostIfGood)
         <= EstimateOf(e.rates, promptTokens, job.targetModels, maxTokens)
  {
    var rs := Sequentially(e, job, job.targetModels, outcomes);
    forall i | 0 <= i < |rs|
      ensures CostIfGood(rs[i]) <= CalculateCost(e.rates, job.targetModels[i], promptTokens, maxTokens)
    {
      assert outcomes[i] in outcomes;
      SequentiallyAt(e, job, job.targetModels, outcomes, i);
      SlotWithinEstimate(e, job, job.targetModels[i], outcomes[i], promptTokens, maxTokens);
    }
    SumWithinEstimate(e.rates, rs, job.targetModels, promptTokens, maxTokens);
  }

  /** The chain for every job taken on: actual cost, estimate, the job's cap, and the server's cap as
      long as that is not below the default. */
  lemma BudgetChain(d: Request, rules: Rules, serverCap: real, e: Setting, job: Job, outcomes: seq<Outcome>,
                    record: JobRecord, completedAt: int)
    requires e.rates.Valid() && TakenOn(d, rules, e.rates, serverCap)
    requires job.targetModels == Normalized(d, rules.alphabet).targetModels && |outcomes| == |job.targetModels|
    requires WithinTokens(outcomes, PromptTokens(rules.bytes(d.prompt)), Normalized(d, rules.alphabet).maxTokens)
    requires Summarizes(record, job, Sequentially(e, job, job.targetModels, outcomes), completedAt)
    ensures var n := Normalized(d, rules.alphabet);
      && record.totalCostUSD <= Estimate(n, rules, e.rates) <= n.budgetCapUSD
      && (serverCap >= DEFAULT_BUDGET_CAP ==> n.budgetCapUSD <= serverCap)
  {
    var maxTokens := Normalized(d, rules.alphabet).maxTokens;
    SpendingWithinEstimate(e, job, outcomes, PromptTokens(rules.bytes(d.prompt)), maxTokens);
    AcceptableBudget(d, rules, serverCap);
  }

  // ---- the server cap ----------------------------------------------------------------------

  predicate IdChar(c: char) {
    'a' <= c <= 'z' || '0' <= c <= '9' || c == '-' || c == '.' || c == ':'
  }

  predicate Plain(s: string) {
    forall i :: 0 <= i < |s| ==> IdChar(s[i])
  }

  /** What every character table agrees on: the characters of model identifiers are no space, are
      their own lower case, and take one byte each; an absent endpoint is fine. */
  ghost predicate Ordinary(rules: Rules) {
    && (forall c :: IdChar(c) ==> !rules.alphabet.isSpace(c) && rules.alphabet.lower(c) == c)
    && (forall s :: Plain(s) ==> rules.bytes(s) == |s|)
    && rules.endpointOk("")
  }

  /** The package's own prices. */
  ghost predicate Listed(rates: Rates, rules: Rules) {
    rates.Valid() && rates.pricing == MODEL_PRICING && rates.alphabet == rules.alphabet
  }

  lemma PlainIsKept(rules: Rules, s: string)
    requires Ordinary(rules) && Plain(s)
    ensures Trim(rules.alphabet, s) == s && rules.bytes(s) == |s|
  {
    if s != [] {
      assert IdChar(s[0]) && IdChar(s[|s| - 1]);
    }
    Trimmed(rules.alphabet, s);
  }

  lemma PlainIsLower(rules: Rules, s: string)
    requires Ordinary(rules) && Plain(s)
    ensures Lower(rules.alphabet, s) == s
  {
    forall i | 0 <= i < |s| ensures Lower(rules.alphabet, s)[i] == s[i] {
      assert IdChar(s[i]);
    }
  }

  /** The dearest key is also the strictly longest, and no key is a single character. */
  ghost predicate TopKey(key: string, pricing: map<string, RateCard>) {
    && key in pricing && pricing[key] == RateCard(3.00, 15.00) && Plain(key) && 1 < |key| < MAX_MODEL_ID
    && forall k :: k in pricing ==> 1 < |k| && (k != key ==> |k| < |key|)
  }

  lemma SonnetIsTopKey(pricing: map<string, RateCard>) returns (key: string)
    requires pricing == MODEL_PRICING
    ensures TopKey(key, pricing)
  {
    key := "claude-3-5-sonnet";
  }

  ghost predicate Prices(rates: Rates, rules: Rules, key: string) {
    rates.Valid() && rates.alphabet == rules.alphabet && Ordinary(rules) && TopKey(key, rates.pricing)
  }

  /** Names that contain the longest key are billed by it. */
  lemma TopKeyBills(rates: Rates, rules: Rules, key: string, rest: string)
    requires Prices(rates, rules, key) && Plain(rest)
    ensures rates.CardOf(key + rest) == RateCard(3.00, 15.00)
  {
    var name := key + rest;
    PlainIsLower(rules, name);
    ContainsMiddle([], key, rest);
    assert [] + key + rest == name;
    LookupIsMostSpecific(rates.keys, rates.pricing, name);
    var best :| MostSpecific(best, rates.pricing, name) && rates.CardOf(name) == rates.pricing[best];
    assert LongerFirst(best, key);
  }

  /** Names shorter than every key are billed by the default card. */
  lemma ShortNameIsDefault(rates: Rates, name: string)
    requires rates.Valid() && forall k :: k in rates.pricing ==> |name| < |k|
    ensures rates.CardOf(name) == DEFAULT_RATE_CARD
  {
    var lowered := Lower(rates.alphabet, name);
    LookupIsMostSpecific(rates.keys, rates.pricing, lowered);
    forall k | k in rates.pricing ensures !Contains(lowered, k) {
      TooShortToContain(lowered, k);
    }
  }

  function Digit(i: nat): char
    requires i < 10
  {
    '0' + i as char
  }

  /** base followed by each of the first k digits. */
  function Numbered(base: string, k: nat): (names: seq<string>)
    requires k <= 10
    ensures |names| == k && forall i :: 0 <= i < k ==> names[i] == base + [Digit(i)]
  {
    seq(k, i requires 0 <= i < k => base + [Digit(i)])
  }

  lemma {:induction false} EstimateSame(rates: Rates, names: seq<string>, promptTokens: nat, maxTokens: int, cost: real)
    requires rates.Valid()
    requires forall i :: 0 <= i < |names| ==> CalculateCost(rates, names[i], promptTokens, maxTokens) == cost
    ensures EstimateOf(rates, promptTokens, names, maxTokens) == |names| as real * cost
  {
    if names != [] {
      var n := |names| - 1;
      EstimateSame(rates, names[..n], promptTokens, maxTokens, cost);
      assert (n + 1) as real * cost == n as real * cost + cost;
    }
  }

  lemma {:induction false} EstimateAppend(rates: Rates, promptTokens: nat, ms: seq<string>, ks: seq<string>,
                                          maxTokens: int)
    requires rates.Valid()
    ensures EstimateOf(rates, promptTokens, ms + ks, maxTokens)
         == EstimateOf(rates, promptTokens, ms, maxTokens) + EstimateOf(rates, promptTokens, ks, maxTokens)
  {
    if ks == [] {
      assert ms + ks == ms;
    } else {
      var n := |ks| - 1;
      assert (ms + ks)[..|ms| + n] == ms + ks[..n];
      EstimateAppend(rates, promptTokens, ms, ks[..n], maxTokens);
    }
  }

  /** Ten models at the dearest price and two unknown ones. */
  ghost predicate IsDearest(names: seq<string>, key: string, k: nat, u: nat) {
    k == 10 && u == 2 && names == Numbered(key, k) + Numbered("", u)
  }

  /** A request for them without a budget, with just enough tokens. */
  function Dearest(prompt: string, names: seq<string>): Request {
    Request("", prompt, "", names, 6000, 0.0, map[])
  }

  lemma DearestPrices(rates: Rates, rules: Rules, key: string, i: nat)
    requires Prices(rates, rules, key) && i < 10
    ensures CalculateCost(rates, key + [Digit(i)], 2000, 6000) == 0.096
    ensures CalculateCost(rates, "" + [Digit(i)], 2000, 6000) == 0.02
  {
    TopKeyBills(rates, rules, key, [Digit(i)]);
    ShortNameIsDefault(rates, "" + [Digit(i)]);
  }

  /** Its worst case is exactly the default cap. */
  lemma DearestEstimate(rates: Rates, rules: Rules, key: string, k: nat, u: nat, names: seq<string>)
    requires Prices(rates, rules, key) && IsDearest(names, key, k, u)
    ensures EstimateOf(rates, 2000, names, 6000) == 1.00
  {
    var long, short := Numbered(key, k), Numbered("", u);
    forall i | 0 <= i < k ensures CalculateCost(rates, long[i], 2000, 6000) == 0.096 {
      DearestPrices(rates, rules, key, i);
    }
    forall i | 0 <= i < u ensures CalculateCost(rates, short[i], 2000, 6000) == 0.02 {
      DearestPrices(rates, rules, key, i);
    }
    EstimateSame(rates, long, 2000, 6000, 0.096);
    EstimateSame(rates, short, 2000, 6000, 0.02);
    EstimateAppend(rates, 2000, long, short, 6000);
  }

  /** A list of identifiers that needs no cleaning. */
  ghost predicate Tidy(rules: Rules, names: seq<string>) {
    && NoDuplicates(names)
    && forall i :: 0 <= i < |names| ==> IsTidy(rules, names[i])
  }

  predicate IsTidy(rules: Rules, name: string) {
    name != "" && Trim(rules.alphabet, name) == name && rules.bytes(name) <= MAX_MODEL_ID
  }

  lemma NumberedIsTidy(rules: Rules, base: string, k: nat)
    requires Ordinary(rules) && Plain(base) && k <= 10 && |base| < MAX_MODEL_ID
    ensures Tidy(rules, Numbered(base, k))
  {
    var names := Numbered(base, k);
    forall i | 0 <= i < k ensures IsTidy(rules, names[i]) {
      assert IdChar(Digit(i));
      PlainIsKept(rules, names[i]);
    }
    forall i, j | 0 <= i < j < k ensures names[i] != names[j] {
      assert names[i][|base|] == Digit(i) && names[j][|base|] == Digit(j);
    }
  }

  lemma JoinedIsTidy(rules: Rules, long: seq<string>, short: seq<string>, n: nat)
    requires Tidy(rules, long) && Tidy(rules, short)
    requires forall i :: 0 <= i < |long| ==> |long[i]| > n
    requires forall i :: 0 <= i < |short| ==> |short[i]| <= n
    ensures Tidy(rules, long + short)
  {
  }

  lemma DearestIsTidy(rules: Rules, key: string, k: nat, u: nat, names: seq<string>)
    requires Ordinary(rules) && Plain(key) && 0 < |key| < MAX_MODEL_ID && IsDearest(names, key, k, u)
    ensures Tidy(rules, names) && |names| == 12
  {
    var long, short := Numbered(key, k), Numbered("", u);
    NumberedIsTidy(rules, key, k);
    NumberedIsTidy(rules, "", u);
    JoinedIsTidy(rules, long, short, 1);
  }

  lemma TidyIsAcceptable(rules: Rules, serverCap: real, d: Request)
    requires Ordinary(rules) && Plain(d.prompt) && 0 < |d.prompt| <= MAX_PROMPT && d.suiteId == d.groundTruth == ""
    requires Tidy(rules, d.targetModels) && 0 < |d.targetModels| <= MAX_TARGET_MODELS
    requires 0 < d.maxTokens <= MAX_OUTPUT_TOKENS && d.apiKeys == map[]
    requires d.budgetCapUSD == 0.0 || 0.0 < d.budgetCapUSD <= serverCap
    ensures Acceptable(d, rules, serverCap)
    ensures Normalized(d, rules.alphabet) ==
      d.(budgetCapUSD := if d.budgetCapUSD == 0.0 then DEFAULT_BUDGET_CAP else d.budgetCapUSD)
  {
    PlainIsKept(rules, d.prompt);
    PlainIsKept(rules, "");
    CleanKeeps(rules.alphabet, d.targetModels);
    WithinLimits(d, rules, serverCap);
  }

  lemma ExactlyTakenOn(rates: Rates, rules: Rules, serverCap: real, d: Request)
    requires rates.Valid() && Acceptable(d, rules, serverCap) && Estimate(d, rules, rates) == 1.00
    requires Normalized(d, rules.alphabet) == d.(budgetCapUSD := DEFAULT_BUDGET_CAP)
    ensures TakenOn(d, rules, rates, serverCap) && Estimate(Normalized(d, rules.alphabet), rules, rates) == 1.00
  {
  }

  lemma PromptCosts(rates: Rates, rules: Rules, d: Request)
    requires rates.Valid() && rules.bytes(d.prompt) == 7996 && d.maxTokens == 6000
    ensures Estimate(d, rules, rates) == EstimateOf(rates, 2000, d.targetModels, 6000)
  {
  }

  /** Some request without a budget costs exactly the default cap and is taken on, whatever the
      server's cap is. */
  lemma DefaultCapIsReached(rates: Rates, rules: Rules, serverCap: real, key: string, k: nat, u: nat, prompt: string)
    returns (d: Request)
    requires Prices(rates, rules, key) && k == 10 && u == 2 && Plain(prompt) && |prompt| == 7996
    ensures TakenOn(d, rules, rates, serverCap) && Estimate(Normalized(d, rules.alphabet), rules, rates) == 1.00
  {
    var names := Numbered(key, k) + Numbered("", u);
    d := Dearest(prompt, names);
    DearestIsTidy(rules, key, k, u, names);
    TidyIsAcceptable(rules, serverCap, d);
    DearestEstimate(rates, rules, key, k, u, names);
    PlainIsKept(rules, d.prompt);
    PromptCosts(rates, rules, d);
    ExactlyTakenOn(rates, rules, serverCap, d);
  }

  lemma LongPrompt(n: nat) returns (prompt: string)
    ensures Plain(prompt) && |prompt| == n
  {
    prompt := seq(n, _ => 'a');
  }

  lemma ListedPrices(rates: Rates, rules: Rules) returns (key: string)
    requires Listed(rates, rules) && Ordinary(rules)
    ensures Prices(rates, rules, key)
  {
    key := SonnetIsTopKey(rates.pricing);
  }

  /** What the theorems here ask of tables is met: by the package's prices, as initialisation leaves
      them, over a simple character table. */
  lemma TablesExist(keys: seq<string>) returns (rates: Rates, rules: Rules, key: string)
    requires IsKeyOrder(keys, MODEL_PRICING)
    ensures Listed(rates, rules) && Ordinary(rules) && rules.alphabet.Valid() && Prices(rates, rules, key)
  {
    rules := Rules(Alphabet(c => c == ' ', c => IdChar(c), c => c), s => |s|, s => true);
    rates := Rates(MODEL_PRICING, keys, rules.alphabet);
    key := ListedPrices(rates, rules);
  }

  /** A smaller server cap is exceeded by a job it accepted. */
  lemma DefaultCapBreaks(rates: Rates, rules: Rules, serverCap: real) returns (d: Request)
    requires Listed(rates, rules) && Ordinary(rules)
    ensures TakenOn(d, rules, rates, serverCap)
    ensures Estimate(Normalized(d, rules.alphabet), rules, rates) == DEFAULT_BUDGET_CAP
  {
    var key := ListedPrices(rates, rules);
    var prompt := LongPrompt(7996);
    d := DefaultCapIsReached(rates, rules, serverCap, key, 10, 2, prompt);
  }

  lemma ServerCapHolds(d: Request, rates: Rates, rules: Rules, serverCap: real)
    requires rates.Valid() && TakenOn(d, rules, rates, serverCap) && serverCap >= DEFAULT_BUDGET_CAP
    ensures Estimate(Normalized(d, rules.alphabet), rules, rates) <= serverCap
  {
    AcceptableBudget(d, rules, serverCap);
  }

  /** No job taken on can cost more than the server's cap exactly when that cap is at least the
      default of 1.00, which requests without a budget get unchecked. */
  lemma ServerCapHoldsIff(rates: Rates, rules: Rules, serverCap: real)
    requires Listed(rates, rules) && Ordinary(rules)
    ensures serverCap >= DEFAULT_BUDGET_CAP <==>
      forall d :: TakenOn(d, rules, rates, serverCap) ==>
        Estimate(Normalized(d, rules.alphabet), rules, rates) <= serverCap
  {
    if serverCap >= DEFAULT_BUDGET_CAP {
      forall d | TakenOn(d, rules, rates, serverCap)
        ensures Estimate(Normalized(d, rules.alphabet), rules, rates) <= serverCap
      {
        ServerCapHolds(d, rates, rules, serverCap);
      }
    } else {
      var d := DefaultCapBreaks(rates, rules, serverCap);
    }
  }

  // ---- normalising again -------------------------------------------------------------------

  lemma DefaultsArePlain(names: seq<string>)
    requires names == DEFAULT_MODELS
    ensures NoDuplicates(names) && forall i :: 0 <= i < |names| ==> Plain(names[i]) && 0 < |names[i]| <= MAX_MODEL_ID
  {
    assert |names[0]| == 16 && |names[1]| == 11 && |names[2]| == 17 && |names[3]| == 13;
  }

  lemma PlainNamesAreTidy(rules: Rules, names: seq<string>)
    requires Ordinary(rules) && NoDuplicates(names)
    requires forall i :: 0 <= i < |names| ==> Plain(names[i]) && 0 < |names[i]| <= MAX_MODEL_ID
    ensures Tidy(rules, names)
  {
    forall i | 0 <= i < |names| ensures IsTidy(rules, names[i]) {
      PlainIsKept(rules, names[i]);
    }
  }

  lemma TrimmedAgain(a: Alphabet, s: string)
    ensures Trim(a, Trim(a, s)) == Trim(a, s)
  {
    Trimmed(a, Trim(a, s));
  }

  lemma CleanIsTidy(rules: Rules, models: seq<string>)
    requires forall i :: 0 <= i < |models| && Trim(rules.alphabet, models[i]) != "" ==>
      rules.bytes(Trim(rules.alphabet, models[i])) <= MAX_MODEL_ID
    ensures Tidy(rules, Clean(rules.alphabet, models))
  {
    var cleaned := Clean(rules.alphabet, models);
    CleanIsDistinct(rules.alphabet, models);
    forall k | 0 <= k < |cleaned| ensures IsTidy(rules, cleaned[k]) {
      assert cleaned[k] in cleaned;
      var i :| 0 <= i < |models| && cleaned[k] == Trim(rules.alphabet, models[i]);
      TrimmedAgain(rules.alphabet, models[i]);
    }
  }

  lemma TargetsAreTidy(rules: Rules, d: Request, serverCap: real)
    requires Ordinary(rules) && Acceptable(d, rules, serverCap)
    ensures Tidy(rules, Targets(rules.alphabet, d.targetModels)) && Targets(rules.alphabet, d.targetModels) != []
    ensures |Targets(rules.alphabet, d.targetModels)| <= MAX_TARGET_MODELS
  {
    assert !Suffers(ModelIdTooLong, d, rules, serverCap) && !Suffers(TooManyModels, d, rules, serverCap);
    CleanIsTidy(rules, d.targetModels);
    DefaultsArePlain(DEFAULT_MODELS);
    PlainNamesAreTidy(rules, DEFAULT_MODELS);
  }

  /** Normalising an accepted request again changes nothing, but it is accepted again only if it
      named a budget or the default fits the server's cap. */
  lemma NormalizingAgain(d: Request, rules: Rules, serverCap: real)
    requires Ordinary(rules) && Acceptable(d, rules, serverCap)
    ensures var n := Normalized(d, rules.alphabet);
      && Normalized(n, rules.alphabet) == n
      && (Acceptable(n, rules, serverCap) <==> d.budgetCapUSD != 0.0 || DEFAULT_BUDGET_CAP <= serverCap)
  {
    var n := Normalized(d, rules.alphabet);
    TargetsAreTidy(rules, d, serverCap);
    CleanKeeps(rules.alphabet, n.targetModels);
    Trimmed(rules.alphabet, n.suiteId);
    AcceptableBudget(d, rules, serverCap);
    if d.budgetCapUSD != 0.0 || DEFAULT_BUDGET_CAP <= serverCap {
      WithinLimitsAgain(d, n, rules, serverCap);
    } else if Acceptable(n, rules, serverCap) {
      AcceptableBudget(n, rules, serverCap);
    }
  }

  lemma WithinLimitsAgain(d: Request, n: Request, rules: Rules, serverCap: real)
    requires Acceptable(d, rules, serverCap) && n == Normalized(d, rules.alphabet)
    requires Tidy(rules, n.targetModels) && Clean(rules.alphabet, n.targetModels) == n.targetModels
    requires 0 < |n.targetModels| <= MAX_TARGET_MODELS && 0.0 < n.budgetCapUSD <= serverCap
    ensures Acceptable(n, rules, serverCap)
  {
    Trimmed(rules.alphabet, n.suiteId);
    AcceptableIff(d, rules, serverCap);
    assert forall i :: 0 <= i < |n.targetModels| ==> IsTidy(rules, n.targetModels[i]);
    WithinLimits(n, rules, serverCap);
  }
}
