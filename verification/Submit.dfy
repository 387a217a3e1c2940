/** Accepting a job: normalising the request, and the budget check before any tokens are spent. */
module Submit {
  import opened Ordering
  import opened Pricing
  import opened Records
  import opened Text

  const MAX_PROMPT := 32_000
  const MAX_GROUND_TRUTH := 32_000
  const MAX_SUITE_ID := 128
  const MAX_MODEL_ID := 100
  const MAX_TARGET_MODELS := 12
  const MAX_OUTPUT_TOKENS := 8192
  const MAX_API_KEYS := 20
  const DEFAULT_MAX_TOKENS := 512
  const DEFAULT_BUDGET_CAP := 1.00
  const OLLAMA_ENDPOINT_KEY := "ollama_endpoint"
  const DEFAULT_MODELS := ["gemini-1.5-flash", "gpt-4o-mini", "claude-3-5-sonnet", "ollama:llama3"]

  datatype Request = Request(
    suiteId: string, prompt: string, groundTruth: string, targetModels: seq<string>,
    maxTokens: int, budgetCapUSD: real, apiKeys: map<string, string>)

  /** Character classes, the UTF-8 length of a string, and which endpoint URLs are valid. */
  datatype Rules = Rules(alphabet: Alphabet, bytes: string -> nat, endpointOk: string -> bool)

  datatype Problem =
    | PromptMissing | PromptTooLong | GroundTruthTooLong | SuiteIdTooLong | ModelIdTooLong | TooManyModels
    | BadMaxTokens | NegativeBudget | BudgetAboveServer | TooManyKeys | BadEndpoint

  // ---- trimming ----------------------------------------------------------------------------

  function TrimLeft(a: Alphabet, s: string): (t: string)
    ensures t == [] || !a.isSpace(t[0])
  {
    if s != [] && a.isSpace(s[0]) then TrimLeft(a, s[1..]) else s
  }

  function TrimRight(a: Alphabet, s: string): (t: string)
    ensures t == [] || !a.isSpace(t[|t| - 1])
    ensures t <= s
  {
    if s != [] && a.isSpace(s[|s| - 1]) then TrimRight(a, s[..|s| - 1]) else s
  }

  /** strings.TrimSpace */
  function Trim(a: Alphabet, s: string): (t: string)
    ensures t == [] || (!a.isSpace(t[0]) && !a.isSpace(t[|t| - 1]))
  {
    TrimRight(a, TrimLeft(a, s))
  }

  ghost predicate AllSpaces(a: Alphabet, s: string) {
    forall i :: 0 <= i < |s| ==> a.isSpace(s[i])
  }

  lemma {:induction false} TrimLeftDropsSpaces(a: Alphabet, s: string) returns (before: string)
    ensures s == before + TrimLeft(a, s) && AllSpaces(a, before)
  {
    if s != [] && a.isSpace(s[0]) {
      var rest := TrimLeftDropsSpaces(a, s[1..]);
      before := [s[0]] + rest;
    } else {
      before := [];
    }
  }

  lemma {:induction false} TrimRightDropsSpaces(a: Alphabet, s: string) returns (after: string)
    ensures s == TrimRight(a, s) + after && AllSpaces(a, after)
  {
    if s != [] && a.isSpace(s[|s| - 1]) {
      var rest := TrimRightDropsSpaces(a, s[..|s| - 1]);
      after := rest + [s[|s| - 1]];
    } else {
      after := [];
    }
  }

  /** Trimming drops nothing but spaces at the ends. */
  lemma TrimDropsSpaces(a: Alphabet, s: string) returns (before: string, after: string)
    ensures s == before + Trim(a, s) + after && AllSpaces(a, before) && AllSpaces(a, after)
  {
    before := TrimLeftDropsSpaces(a, s);
    after := TrimRightDropsSpaces(a, TrimLeft(a, s));
    assert before + (Trim(a, s) + after) == before + Trim(a, s) + after;
  }

  lemma Trimmed(a: Alphabet, s: string)
    requires s == [] || (!a.isSpace(s[0]) && !a.isSpace(s[|s| - 1]))
    ensures Trim(a, s) == s
  {
  }

  // ---- target models ------------------------------------------------------------------------

  /** The first occurrences of the non-blank trimmed identifiers. */
  function Clean(a: Alphabet, models: seq<string>): seq<string> {
    if models == [] then []
    else
      var before, m := Clean(a, models[..|models| - 1]), Trim(a, models[|models| - 1]);
      if m == "" || m in before then before else before + [m]
  }

  /** Cleaning loses no model and adds none, and leaves every one once. */
  lemma {:induction false} CleanIsDistinct(a: Alphabet, models: seq<string>)
    ensures NoDuplicates(Clean(a, models))
    ensures forall m :: m in Clean(a, models) <==> m != "" && exists i :: 0 <= i < |models| && m == Trim(a, models[i])
  {
    if models != [] {
      var n := |models| - 1;
      CleanIsDistinct(a, models[..n]);
      var before := Clean(a, models[..n]);
      assert forall i :: 0 <= i < |before| ==> before[i] in before;
      forall m ensures m in Clean(a, models) <==> m != "" && exists i :: 0 <= i < |models| && m == Trim(a, models[i]) {
        assert (exists i :: 0 <= i < |models| && m == Trim(a, models[i])) <==>
          (exists i :: 0 <= i < n && m == Trim(a, models[..n][i])) || m == Trim(a, models[n]);
      }
    }
  }

  /** p is the first place where the trimmed identifier m stands. */
  ghost predicate FirstAt(a: Alphabet, models: seq<string>, p: nat, m: string) {
    p < |models| && Trim(a, models[p]) == m && forall i :: 0 <= i < p ==> Trim(a, models[i]) != m
  }

  /** The cleaned identifiers stand in the order of their first occurrences. */
  lemma {:induction false} CleanInOrder(a: Alphabet, models: seq<string>) returns (ps: seq<nat>)
    ensures |ps| == |Clean(a, models)|
    ensures forall k :: 0 <= k < |ps| ==> FirstAt(a, models, ps[k], Clean(a, models)[k])
    ensures forall k, l :: 0 <= k < l < |ps| ==> ps[k] < ps[l]
  {
    if models == [] {
      ps := [];
    } else {
      var n := |models| - 1;
      var before, m := Clean(a, models[..n]), Trim(a, models[n]);
      ps := CleanInOrder(a, models[..n]);
      assert forall i :: 0 <= i < n ==> models[..n][i] == models[i];
      forall k | 0 <= k < |ps| ensures FirstAt(a, models, ps[k], before[k]) {
        assert FirstAt(a, models[..n], ps[k], before[k]);
      }
      if m != "" && m !in before {
        CleanIsDistinct(a, models[..n]);
        ps := ps + [n];
      }
    }
  }

  /** A list that needs no cleaning is kept as it is, in its order. */
  lemma {:induction false} CleanKeeps(a: Alphabet, models: seq<string>)
    requires NoDuplicates(models)
    requires forall i :: 0 <= i < |models| ==> models[i] != "" && Trim(a, models[i]) == models[i]
    ensures Clean(a, models) == models
  {
    if models != [] {
      var n := |models| - 1;
      CleanKeeps(a, models[..n]);
      assert models == models[..n] + [models[n]];
    }
  }

  /** The loop over target_models: `seen` is the set of the cleaned ones. */
  method CleanModels(rules: Rules, models: seq<string>) returns (cleaned: seq<string>, tooLong: bool)
    ensures tooLong <==> exists i :: 0 <= i < |models| && rules.bytes(Trim(rules.alphabet, models[i])) > MAX_MODEL_ID &&
                           Trim(rules.alphabet, models[i]) != ""
    ensures !tooLong ==> cleaned == Clean(rules.alphabet, models)
  {
    var seen := {};
    cleaned, tooLong := [], false;
    for k := 0 to |models|
      invariant !tooLong && cleaned == Clean(rules.alphabet, models[..k])
      invariant forall m :: m in seen <==> m in cleaned
      invariant forall m :: m in cleaned ==> rules.bytes(m) <= MAX_MODEL_ID
      invariant forall i :: 0 <= i < k ==>
        rules.bytes(Trim(rules.alphabet, models[i])) <= MAX_MODEL_ID || Trim(rules.alphabet, models[i]) == ""
    {
      var m := Trim(rules.alphabet, models[k]);
      assert models[..k + 1][..k] == models[..k];
      if m == "" || m in seen {
        continue;
      }
      if rules.bytes(m) > MAX_MODEL_ID {
        tooLong := true;
        return;
      }
      seen := seen + {m};
      cleaned := cleaned + [m];
    }
    assert models[..|models|] == models;
  }

  // ---- normalising -------------------------------------------------------------------------

  function Targets(a: Alphabet, models: seq<string>): seq<string> {
    var cleaned := Clean(a, models);
    if cleaned == [] then DEFAULT_MODELS else cleaned
  }

  function Endpoint(rules: Rules, keys: map<string, string>): string {
    Trim(rules.alphabet, if OLLAMA_ENDPOINT_KEY in keys then keys[OLLAMA_ENDPOINT_KEY] else "")
  }

  ghost predicate TextProblem(p: Problem, suiteId: string, prompt: string, groundTruth: string, rules: Rules) {
    match p
    case PromptMissing => Trim(rules.alphabet, prompt) == ""
    case PromptTooLong => rules.bytes(prompt) > MAX_PROMPT
    case GroundTruthTooLong => rules.bytes(groundTruth) > MAX_GROUND_TRUTH
    case SuiteIdTooLong => rules.bytes(Trim(rules.alphabet, suiteId)) > MAX_SUITE_ID
    case _ => false
  }

  ghost predicate ModelProblem(p: Problem, models: seq<string>, rules: Rules) {
    match p
    case ModelIdTooLong =>
      exists i :: 0 <= i < |models| && rules.bytes(Trim(rules.alphabet, models[i])) > MAX_MODEL_ID &&
        Trim(rules.alphabet, models[i]) != ""
    case TooManyModels => |Targets(rules.alphabet, models)| > MAX_TARGET_MODELS
    case _ => false
  }

  ghost predicate LimitProblem(p: Problem, maxTokens: int, budgetCapUSD: real, apiKeys: map<string, string>,
                               rules: Rules, serverCap: real) {
    match p
    case BadMaxTokens => maxTokens < 0 || maxTokens > MAX_OUTPUT_TOKENS
    case NegativeBudget => budgetCapUSD < 0.0
    case BudgetAboveServer => budgetCapUSD > serverCap && budgetCapUSD > 0.0
    case TooManyKeys => |apiKeys| > MAX_API_KEYS
    case BadEndpoint => !rules.endpointOk(Endpoint(rules, apiKeys))
    case _ => false
  }

  /** What is wrong with a request. */
  ghost predicate Suffers(p: Problem, d: Request, rules: Rules, serverCap: real) {
    || TextProblem(p, d.suiteId, d.prompt, d.groundTruth, rules)
    || ModelProblem(p, d.targetModels, rules)
    || LimitProblem(p, d.maxTokens, d.budgetCapUSD, d.apiKeys, rules, serverCap)
  }

  /** The place of a check in the handler. */
  function Place(p: Problem): nat {
    match p
    case PromptMissing => 0
    case PromptTooLong => 1
    case GroundTruthTooLong => 2
    case SuiteIdTooLong => 3
    case ModelIdTooLong => 4
    case TooManyModels => 5
    case BadMaxTokens => 6
    case NegativeBudget => 7
    case BudgetAboveServer => 8
    case TooManyKeys => 9
    case BadEndpoint => 10
  }

  /** The first problem in the order of the checks. */
  ghost predicate IsFirst(p: Problem, d: Request, rules: Rules, serverCap: real) {
    Suffers(p, d, rules, serverCap) && forall q :: Suffers(q, d, rules, serverCap) ==> Place(p) <= Place(q)
  }

  ghost predicate Acceptable(d: Request, rules: Rules, serverCap: real) {
    forall p :: !Suffers(p, d, rules, serverCap)
  }

  lemma AcceptableBudget(d: Request, rules: Rules, serverCap: real)
    requires Acceptable(d, rules, serverCap)
    ensures d.budgetCapUSD == 0.0 || 0.0 < d.budgetCapUSD <= serverCap
  {
    assert !Suffers(BudgetAboveServer, d, rules, serverCap);
    assert !Suffers(NegativeBudget, d, rules, serverCap);
  }

  /** What the handler accepts, check by check. */
  ghost predicate IsInLimits(d: Request, rules: Rules, serverCap: real) {
    && Trim(rules.alphabet, d.prompt) != "" && rules.bytes(d.prompt) <= MAX_PROMPT
    && rules.bytes(d.groundTruth) <= MAX_GROUND_TRUTH && rules.bytes(Trim(rules.alphabet, d.suiteId)) <= MAX_SUITE_ID
    && (forall i :: 0 <= i < |d.targetModels| && Trim(rules.alphabet, d.targetModels[i]) != "" ==>
          rules.bytes(Trim(rules.alphabet, d.targetModels[i])) <= MAX_MODEL_ID)
    && |Targets(rules.alphabet, d.targetModels)| <= MAX_TARGET_MODELS
    && 0 <= d.maxTokens <= MAX_OUTPUT_TOKENS && (d.budgetCapUSD == 0.0 || 0.0 < d.budgetCapUSD <= serverCap)
    && |d.apiKeys| <= MAX_API_KEYS && EndpointIsValid(d.apiKeys, rules)
  }

  /** The given endpoint without surrounding spaces, or the empty one, is valid. */
  predicate EndpointIsValid(keys: map<string, string>, rules: Rules) {
    if OLLAMA_ENDPOINT_KEY in keys then rules.endpointOk(Trim(rules.alphabet, keys[OLLAMA_ENDPOINT_KEY]))
    else rules.endpointOk("")
  }

  lemma TextsAcceptableIff(d: Request, rules: Rules)
    ensures (forall p :: !TextProblem(p, d.suiteId, d.prompt, d.groundTruth, rules)) <==>
      && Trim(rules.alphabet, d.prompt) != "" && rules.bytes(d.prompt) <= MAX_PROMPT
      && rules.bytes(d.groundTruth) <= MAX_GROUND_TRUTH && rules.bytes(Trim(rules.alphabet, d.suiteId)) <= MAX_SUITE_ID
  {
    assert TextProblem(PromptMissing, d.suiteId, d.prompt, d.groundTruth, rules) <==>
      Trim(rules.alphabet, d.prompt) == "";
    assert TextProblem(PromptTooLong, d.suiteId, d.prompt, d.groundTruth, rules) <==>
      rules.bytes(d.prompt) > MAX_PROMPT;
    assert TextProblem(GroundTruthTooLong, d.suiteId, d.prompt, d.groundTruth, rules) <==>
      rules.bytes(d.groundTruth) > MAX_GROUND_TRUTH;
    assert TextProblem(SuiteIdTooLong, d.suiteId, d.prompt, d.groundTruth, rules) <==>
      rules.bytes(Trim(rules.alphabet, d.suiteId)) > MAX_SUITE_ID;
  }

  lemma ModelsAcceptableIff(d: Request, rules: Rules)
    ensures (forall p :: !ModelProblem(p, d.targetModels, rules)) <==>
      && (forall i :: 0 <= i < |d.targetModels| && Trim(rules.alphabet, d.targetModels[i]) != "" ==>
            rules.bytes(Trim(rules.alphabet, d.targetModels[i])) <= MAX_MODEL_ID)
      && |Targets(rules.alphabet, d.targetModels)| <= MAX_TARGET_MODELS
  {
    assert ModelProblem(TooManyModels, d.targetModels, rules) <==>
      |Targets(rules.alphabet, d.targetModels)| > MAX_TARGET_MODELS;
    if forall p :: !ModelProblem(p, d.targetModels, rules) {
      assert !ModelProblem(ModelIdTooLong, d.targetModels, rules);
    }
  }

  lemma LimitsAcceptableIff(d: Request, rules: Rules, serverCap: real)
    ensures (forall p :: !LimitProblem(p, d.maxTokens, d.budgetCapUSD, d.apiKeys, rules, serverCap)) <==>
      && 0 <= d.maxTokens <= MAX_OUTPUT_TOKENS && (d.budgetCapUSD == 0.0 || 0.0 < d.budgetCapUSD <= serverCap)
      && |d.apiKeys| <= MAX_API_KEYS && EndpointIsValid(d.apiKeys, rules)
  {
    if forall p :: !LimitProblem(p, d.maxTokens, d.budgetCapUSD, d.apiKeys, rules, serverCap) {
      assert !LimitProblem(BadMaxTokens, d.maxTokens, d.budgetCapUSD, d.apiKeys, rules, serverCap);
      assert !LimitProblem(NegativeBudget, d.maxTokens, d.budgetCapUSD, d.apiKeys, rules, serverCap);
      assert !LimitProblem(BudgetAboveServer, d.maxTokens, d.budgetCapUSD, d.apiKeys, rules, serverCap);
      assert !LimitProblem(TooManyKeys, d.maxTokens, d.budgetCapUSD, d.apiKeys, rules, serverCap);
      assert !LimitProblem(BadEndpoint, d.maxTokens, d.budgetCapUSD, d.apiKeys, rules, serverCap);
    }
  }

  /** A request has no problem exactly when it is within every limit. */
  lemma AcceptableIff(d: Request, rules: Rules, serverCap: real)
    ensures Acceptable(d, rules, serverCap) <==> IsInLimits(d, rules, serverCap)
  {
    TextsAcceptableIff(d, rules);
    ModelsAcceptableIff(d, rules);
    LimitsAcceptableIff(d, rules, serverCap);
    if Acceptable(d, rules, serverCap) {
      forall p
        ensures !TextProblem(p, d.suiteId, d.prompt, d.groundTruth, rules) && !ModelProblem(p, d.targetModels, rules)
        ensures !LimitProblem(p, d.maxTokens, d.budgetCapUSD, d.apiKeys, rules, serverCap)
      {
        assert !Suffers(p, d, rules, serverCap);
      }
    }
  }

  lemma WithinLimits(d: Request, rules: Rules, serverCap: real)
    requires Trim(rules.alphabet, d.prompt) != "" && rules.bytes(d.prompt) <= MAX_PROMPT
    requires rules.bytes(d.groundTruth) <= MAX_GROUND_TRUTH
    requires rules.bytes(Trim(rules.alphabet, d.suiteId)) <= MAX_SUITE_ID
    requires forall i :: 0 <= i < |d.targetModels| ==>
      rules.bytes(Trim(rules.alphabet, d.targetModels[i])) <= MAX_MODEL_ID
    requires |Targets(rules.alphabet, d.targetModels)| <= MAX_TARGET_MODELS
    requires 0 <= d.maxTokens <= MAX_OUTPUT_TOKENS && (d.budgetCapUSD == 0.0 || 0.0 < d.budgetCapUSD <= serverCap)
    requires |d.apiKeys| <= MAX_API_KEYS && EndpointIsValid(d.apiKeys, rules)
    ensures Acceptable(d, rules, serverCap)
  {
    AcceptableIff(d, rules, serverCap);
  }

  /** The request after defaults. */
  function Normalized(d: Request, a: Alphabet): Request {
    d.(suiteId := Trim(a, d.suiteId),
       targetModels := Targets(a, d.targetModels),
       maxTokens := if d.maxTokens == 0 then DEFAULT_MAX_TOKENS else d.maxTokens,
       budgetCapUSD := if d.budgetCapUSD == 0.0 then DEFAULT_BUDGET_CAP else d.budgetCapUSD)
  }

  /** What an accepted request becomes: only surrounding spaces, blank and repeated identifiers go, and
      only what was not given is filled in. */
  lemma NormalizedKeeps(d: Request, a: Alphabet)
    ensures var n := Normalized(d, a);
      && n.prompt == d.prompt && n.groundTruth == d.groundTruth && n.apiKeys == d.apiKeys
      && (exists before, after ::
            d.suiteId == before + n.suiteId + after && AllSpaces(a, before) && AllSpaces(a, after))
      && (n.suiteId == "" || (!a.isSpace(n.suiteId[0]) && !a.isSpace(n.suiteId[|n.suiteId| - 1])))
      && (n.maxTokens == d.maxTokens || (d.maxTokens == 0 && n.maxTokens == 512))
      && (n.budgetCapUSD == d.budgetCapUSD || (d.budgetCapUSD == 0.0 && n.budgetCapUSD == 1.00))
      && n.maxTokens != 0 && n.budgetCapUSD != 0.0
      && (forall m :: m != "" && (exists i :: 0 <= i < |d.targetModels| && m == Trim(a, d.targetModels[i])) ==>
            m in n.targetModels)
      && n.targetModels != []
  {
    var before, after := TrimDropsSpaces(a, d.suiteId);
    CleanIsDistinct(a, d.targetModels);
    assert d.suiteId == before + Normalized(d, a).suiteId + after;
  }

  class SubmitJobRequest {
    var suiteId: string
    var prompt: string
    var groundTruth: string
    var targetModels: seq<string>
    var maxTokens: int
    var budgetCapUSD: real
    var apiKeys: map<string, string>

    constructor (d: Request)
      ensures Data() == d
    {
      suiteId, prompt, groundTruth, targetModels := d.suiteId, d.prompt, d.groundTruth, d.targetModels;
      maxTokens, budgetCapUSD, apiKeys := d.maxTokens, d.budgetCapUSD, d.apiKeys;
    }

    function Data(): Request
      reads this
    {
      Request(suiteId, prompt, groundTruth, targetModels, maxTokens, budgetCapUSD, apiKeys)
    }

    /** Applies defaults and validates; the problem it names is the first one the request had. */
    method Normalize(rules: Rules, serverCap: real) returns (problem: Option<Problem>)
      modifies this
      ensures problem.None? <==> Acceptable(old(Data()), rules, serverCap)
      ensures problem.Some? ==> IsFirst(problem.value, old(Data()), rules, serverCap)
      ensures problem.None? ==> Data() == Normalized(old(Data()), rules.alphabet)
    {
      ghost var d := Data();
      problem := CheckTexts(rules);
      if problem.None? {
        problem := CheckModels(rules);
      }
      if problem.None? {
        assert maxTokens == d.maxTokens && budgetCapUSD == d.budgetCapUSD && apiKeys == d.apiKeys;
        problem := CheckLimits(rules, serverCap);
        assert problem.None? ==> forall p :: !LimitProblem(p, d.maxTokens, d.budgetCapUSD, d.apiKeys, rules, serverCap);
      }
      assert problem.Some? ==> Suffers(problem.value, d, rules, serverCap);
    }

    method CheckTexts(rules: Rules) returns (problem: Option<Problem>)
      modifies this`suiteId
      ensures suiteId == Trim(rules.alphabet, old(suiteId))
      ensures problem.None? ==> forall p :: !TextProblem(p, old(suiteId), old(prompt), old(groundTruth), rules)
      ensures problem.Some? ==> TextProblem(problem.value, old(suiteId), old(prompt), old(groundTruth), rules)
      ensures problem.Some? ==> forall q :: TextProblem(q, old(suiteId), old(prompt), old(groundTruth), rules) ==>
                                  Place(problem.value) <= Place(q)
    {
      suiteId := Trim(rules.alphabet, suiteId);
      if Trim(rules.alphabet, prompt) == "" {
        return Some(PromptMissing);
      }
      if rules.bytes(prompt) > MAX_PROMPT {
        return Some(PromptTooLong);
      }
      if rules.bytes(groundTruth) > MAX_GROUND_TRUTH {
        return Some(GroundTruthTooLong);
      }
      if rules.bytes(suiteId) > MAX_SUITE_ID {
        return Some(SuiteIdTooLong);
      }
      return None;
    }

    method CheckModels(rules: Rules) returns (problem: Option<Problem>)
      modifies this`targetModels
      ensures problem.None? ==> targetModels == Targets(rules.alphabet, old(targetModels))
      ensures problem.None? ==> forall p :: !ModelProblem(p, old(targetModels), rules)
      ensures problem.Some? ==> ModelProblem(problem.value, old(targetModels), rules)
      ensures problem.Some? ==>
        forall q :: ModelProblem(q, old(targetModels), rules) ==> Place(problem.value) <= Place(q)
    {
      var cleaned, tooLong := CleanModels(rules, targetModels);
      if tooLong {
        return Some(ModelIdTooLong);
      }
      if |cleaned| == 0 {
        cleaned := DEFAULT_MODELS;
      }
      if |cleaned| > MAX_TARGET_MODELS {
        return Some(TooManyModels);
      }
      assert !ModelProblem(ModelIdTooLong, targetModels, rules);
      targetModels := cleaned;
      return None;
    }

    method CheckLimits(rules: Rules, serverCap: real) returns (problem: Option<Problem>)
      modifies this`maxTokens, this`budgetCapUSD
      ensures problem.None? ==> maxTokens == (if old(maxTokens) == 0 then DEFAULT_MAX_TOKENS else old(maxTokens))
      ensures problem.None? ==>
        budgetCapUSD == (if old(budgetCapUSD) == 0.0 then DEFAULT_BUDGET_CAP else old(budgetCapUSD))
      ensures problem.None? ==>
        forall p :: !LimitProblem(p, old(maxTokens), old(budgetCapUSD), old(apiKeys), rules, serverCap)
      ensures problem.Some? ==>
        LimitProblem(problem.value, old(maxTokens), old(budgetCapUSD), old(apiKeys), rules, serverCap)
      ensures problem.Some? ==>
        forall q :: LimitProblem(q, old(maxTokens), old(budgetCapUSD), old(apiKeys), rules, serverCap) ==>
          Place(problem.value) <= Place(q)
    {
      if maxTokens == 0 {
        maxTokens := DEFAULT_MAX_TOKENS;
      } else if maxTokens < 0 || maxTokens > MAX_OUTPUT_TOKENS {
        return Some(BadMaxTokens);
      }
      if budgetCapUSD == 0.0 {
        budgetCapUSD := DEFAULT_BUDGET_CAP;
      } else if budgetCapUSD < 0.0 {
        return Some(NegativeBudget);
      } else if budgetCapUSD > serverCap {
        return Some(BudgetAboveServer);
      }
      if |apiKeys| > MAX_API_KEYS {
        return Some(TooManyKeys);
      }
      if !rules.endpointOk(Endpoint(rules, apiKeys)) {
        return Some(BadEndpoint);
      }
      return None;
    }
  }

  // ---- the estimate ------------------------------------------------------------------------

  function PromptTokens(bytes: nat): nat {
    bytes / 4 + 1
  }

  function EstimateOf(rates: Rates, promptTokens: nat, models: seq<string>, maxTokens: int): real
    requires rates.Valid()
  {
    if models == [] then 0.0
    else EstimateOf(rates, promptTokens, models[..|models| - 1], maxTokens)
         + CalculateCost(rates, models[|models| - 1], promptTokens, maxTokens)
  }

  method EstimateCostUSD(rates: Rates, promptBytes: nat, models: seq<string>, maxTokens: int) returns (total: real)
    requires rates.Valid()
    ensures total == EstimateOf(rates, PromptTokens(promptBytes), models, maxTokens)
  {
    var promptTokens := promptBytes / 4 + 1;
    total := 0.0;
    for k := 0 to |models|
      invariant total == EstimateOf(rates, promptTokens, models[..k], maxTokens)
    {
      assert models[..k + 1][..k] == models[..k];
      total := total + CalculateCost(rates, models[k], promptTokens, maxTokens);
    }
    assert models[..|models|] == models;
  }

  /** The estimate of a normalised request. */
  function Estimate(d: Request, rules: Rules, rates: Rates): real
    requires rates.Valid()
  {
    EstimateOf(rates, PromptTokens(rules.bytes(d.prompt)), d.targetModels, d.maxTokens)
  }

  datatype Answer = BadRequest(problem: Problem) | OverBudget(estimate: real) | Accepted(estimate: real)

  /** A request the handler takes on: no problem, and the worst case within the job's own cap. */
  ghost predicate TakenOn(d: Request, rules: Rules, rates: Rates, serverCap: real)
    requires rates.Valid()
  {
    var n := Normalized(d, rules.alphabet);
    Acceptable(d, rules, serverCap) && Estimate(n, rules, rates) <= n.budgetCapUSD
  }

  /** The part of handleSubmitJob before anything is stored or queued. */
  method HandleSubmit(req: SubmitJobRequest, rules: Rules, rates: Rates, serverCap: real) returns (answer: Answer)
    requires rates.Valid()
    modifies req
    ensures answer.Accepted? <==> TakenOn(old(req.Data()), rules, rates, serverCap)
    ensures answer.BadRequest? <==> !Acceptable(old(req.Data()), rules, serverCap)
    ensures !answer.BadRequest? ==>
      && req.Data() == Normalized(old(req.Data()), rules.alphabet)
      && answer.estimate == Estimate(req.Data(), rules, rates)
  {
    var problem := req.Normalize(rules, serverCap);
    if problem.Some? {
      return BadRequest(problem.value);
    }
    var estimated := EstimateCostUSD(rates, rules.bytes(req.prompt), req.targetModels, req.maxTokens);
    if estimated > req.budgetCapUSD {
      return OverBudget(estimated);
    }
    return Accepted(estimated);
  }
}
