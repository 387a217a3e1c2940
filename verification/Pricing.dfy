/** Rate cards: the most specific matching key wins, whatever order the map yields its keys in. */
module Pricing {
  import opened Ordering
  import opened Text

  datatype RateCard = RateCard(inputPerMillion: real, outputPerMillion: real)

  const MODEL_PRICING: map<string, RateCard> := map[
    "gemini-1.5-pro" := RateCard(3.50, 10.50),
    "gemini-1.5-flash" := RateCard(0.075, 0.30),
    "gemini" := RateCard(0.075, 0.30),
    "gpt-4o" := RateCard(2.50, 10.00),
    "gpt-4o-mini" := RateCard(0.15, 0.60),
    "openai" := RateCard(0.15, 0.60),
    "claude-3-5-sonnet" := RateCard(3.00, 15.00),
    "claude-3-5-haiku" := RateCard(0.80, 4.00),
    "anthropic" := RateCard(3.00, 15.00),
    "ollama" := RateCard(0.00, 0.00),
    "llama3" := RateCard(0.00, 0.00),
    "deepseek" := RateCard(0.00, 0.00)
  ]

  const DEFAULT_RATE_CARD := RateCard(1.00, 3.00)

  /** Longest first, then alphabetically. */
  predicate LongerFirst(a: string, b: string) {
    |a| > |b| || (|a| == |b| && LexLe(a, b))
  }

  lemma LongerFirstIsOrder()
    ensures TotalPreorder(LongerFirst) && Antisymmetric(LongerFirst)
  {
    LexIsOrder();
    forall a, b ensures LongerFirst(a, b) || LongerFirst(b, a) { LexTotal(a, b); }
  }

  /** The rate table in lookup order. */
  ghost predicate IsKeyOrder(keys: seq<string>, pricing: map<string, RateCard>) {
    SortedBy(LongerFirst, keys) && NoDuplicates(keys) && forall k :: k in keys <==> k in pricing
  }

  method PricingKeys(pricing: map<string, RateCard>) returns (keys: seq<string>)
    ensures IsKeyOrder(keys, pricing)
  {
    var unsorted := AnyOrder(pricing.Keys);
    LongerFirstIsOrder();
    keys := Sort(LongerFirst, unsorted);
    PermutationKeepsNoDuplicates(unsorted, keys);
    PermutationKeepsMembers(unsorted, keys);
  }

  /** The order of the keys does not depend on how the map is iterated. */
  lemma KeyOrderIsUnique(keys: seq<string>, others: seq<string>, pricing: map<string, RateCard>)
    requires IsKeyOrder(keys, pricing) && IsKeyOrder(others, pricing)
    ensures keys == others
  {
    SameMembersPermute(keys, others);
    LongerFirstIsOrder();
    SortedUnique(LongerFirst, keys, others);
  }

  /** Scans the keys in order for the first that occurs in the lower-cased name. */
  function Lookup(keys: seq<string>, pricing: map<string, RateCard>, lowered: string): RateCard
    requires forall k :: k in keys ==> k in pricing
  {
    if keys == [] then DEFAULT_RATE_CARD
    else if Contains(lowered, keys[0]) then pricing[keys[0]]
    else Lookup(keys[1..], pricing, lowered)
  }

  /** key is the most specific key contained in the name. */
  ghost predicate MostSpecific(key: string, pricing: map<string, RateCard>, lowered: string) {
    && key in pricing && Contains(lowered, key)
    && forall k :: k in pricing && Contains(lowered, k) ==> LongerFirst(key, k)
  }

  /** The card belongs to the most specific key, or is the default exactly when no key matches. */
  ghost predicate IsCardFor(card: RateCard, pricing: map<string, RateCard>, lowered: string) {
    if exists k :: k in pricing && Contains(lowered, k)
    then exists key :: MostSpecific(key, pricing, lowered) && card == pricing[key]
    else card == DEFAULT_RATE_CARD
  }

  lemma CardIsUnique(c1: RateCard, c2: RateCard, pricing: map<string, RateCard>, lowered: string)
    requires IsCardFor(c1, pricing, lowered) && IsCardFor(c2, pricing, lowered)
    ensures c1 == c2
  {
    LongerFirstIsOrder();
  }

  /** Among the keys from position i on, as long as the earlier ones do not match. */
  lemma {:induction false} ScanFindsMostSpecific(keys: seq<string>, pricing: map<string, RateCard>, lowered: string,
                                                 i: nat)
    requires IsKeyOrder(keys, pricing) && i <= |keys|
    requires forall j :: 0 <= j < i ==> !Contains(lowered, keys[j])
    ensures forall k :: k in keys[i..] ==> k in pricing
    ensures IsCardFor(Lookup(keys[i..], pricing, lowered), pricing, lowered)
    decreases |keys| - i
  {
    forall k | k in keys[i..] ensures k in pricing {
      assert k in keys;
    }
    if i == |keys| {
      assert keys[i..] == [];
      assert forall k :: k in pricing ==> k in keys;
    } else if Contains(lowered, keys[i]) {
      assert keys[i] in keys;
      forall k | k in pricing && Contains(lowered, k) ensures LongerFirst(keys[i], k) {
        var j :| 0 <= j < |keys| && keys[j] == k;
        LongerFirstIsOrder();
      }
      assert MostSpecific(keys[i], pricing, lowered);
    } else {
      assert keys[i..][1..] == keys[i + 1..];
      ScanFindsMostSpecific(keys, pricing, lowered, i + 1);
    }
  }

  lemma LookupIsMostSpecific(keys: seq<string>, pricing: map<string, RateCard>, lowered: string)
    requires IsKeyOrder(keys, pricing)
    ensures IsCardFor(Lookup(keys, pricing, lowered), pricing, lowered)
  {
    ScanFindsMostSpecific(keys, pricing, lowered, 0);
    assert keys[0..] == keys;
  }

  // ---- cost ---------------------------------------------------------------------------------

  /** The package's pricing state: the table, its key order, and the case mapping of names. */
  datatype Rates = Rates(pricing: map<string, RateCard>, keys: seq<string>, alphabet: Alphabet) {
    ghost predicate Valid() {
      && IsKeyOrder(keys, pricing)
      && forall k :: k in pricing ==> pricing[k].inputPerMillion >= 0.0 && pricing[k].outputPerMillion >= 0.0
    }

    function CardOf(model: string): (card: RateCard)
      requires Valid()
      ensures card.inputPerMillion >= 0.0 && card.outputPerMillion >= 0.0
    {
      LookupIsMostSpecific(keys, pricing, Lower(alphabet, model));
      Lookup(keys, pricing, Lower(alphabet, model))
    }
  }

  /** A name gets the card of the most specific key its lower-case form contains. */
  lemma CardIsForLowered(rates: Rates, model: string)
    requires rates.Valid()
    ensures IsCardFor(rates.CardOf(model), rates.pricing, Lower(rates.alphabet, model))
  {
    LookupIsMostSpecific(rates.keys, rates.pricing, Lower(rates.alphabet, model));
  }

  /** The case of a name does not matter. */
  lemma CaseDoesNotMatter(rates: Rates, model: string, p: int, c: int)
    requires rates.Valid() && rates.alphabet.Valid()
    ensures rates.CardOf(Lower(rates.alphabet, model)) == rates.CardOf(model)
    ensures CalculateCost(rates, Lower(rates.alphabet, model), p, c) == CalculateCost(rates, model, p, c)
  {
    LowerTwice(rates.alphabet, model);
  }

  /** Package initialisation. */
  method Load(alphabet: Alphabet) returns (rates: Rates)
    ensures rates.Valid() && rates.pricing == MODEL_PRICING && rates.alphabet == alphabet
  {
    var keys := PricingKeys(MODEL_PRICING);
    rates := Rates(MODEL_PRICING, keys, alphabet);
  }

  function AtLeastZero(tokens: int): nat {
    if tokens < 0 then 0 else tokens
  }

  function TokenCost(tokens: int, perMillion: real): real {
    (AtLeastZero(tokens) as real / 1_000_000.0) * perMillion
  }

  function CalculateCost(rates: Rates, model: string, promptTokens: int, completionTokens: int): real
    requires rates.Valid()
  {
    var card := rates.CardOf(model);
    TokenCost(promptTokens, card.inputPerMillion) + TokenCost(completionTokens, card.outputPerMillion)
  }

  lemma ScaleUp(x: real, y: real, rate: real)
    requires 0.0 <= x <= y && rate >= 0.0
    ensures 0.0 <= x * rate <= y * rate
  {
    assert y * rate - x * rate == (y - x) * rate;
  }

  lemma ScaleTokens(p: int, q: int, rate: real)
    requires p <= q && rate >= 0.0
    ensures 0.0 <= TokenCost(p, rate) <= TokenCost(q, rate)
  {
    var x, y := AtLeastZero(p) as real / 1_000_000.0, AtLeastZero(q) as real / 1_000_000.0;
    assert 0.0 <= x <= y;
    ScaleUp(x, y, rate);
  }

  /** More tokens never cost less, and no count makes the cost negative. */
  lemma CostIsMonotone(rates: Rates, model: string, p: int, c: int, p': int, c': int)
    requires rates.Valid() && p <= p' && c <= c'
    ensures 0.0 <= CalculateCost(rates, model, p, c) <= CalculateCost(rates, model, p', c')
  {
    var card := rates.CardOf(model);
    ScaleTokens(p, p', card.inputPerMillion);
    ScaleTokens(c, c', card.outputPerMillion);
  }

  lemma ScaleSum(x: nat, y: nat, rate: real)
    ensures TokenCost(x + y, rate) == TokenCost(x, rate) + TokenCost(y, rate)
  {
    assert (x + y) as real / 1_000_000.0 == x as real / 1_000_000.0 + y as real / 1_000_000.0;
  }

  /** What fixes the formula: a million tokens cost the card's rate, and costs add up. */
  lemma CostIsAdditive(rates: Rates, model: string, p: nat, c: nat, p': nat, c': nat)
    requires rates.Valid()
    ensures CalculateCost(rates, model, p + p', c + c') ==
      CalculateCost(rates, model, p, c) + CalculateCost(rates, model, p', c')
    ensures CalculateCost(rates, model, 1_000_000, 0) == rates.CardOf(model).inputPerMillion
    ensures CalculateCost(rates, model, 0, 1_000_000) == rates.CardOf(model).outputPerMillion
  {
    ScaleSum(p, p', rates.CardOf(model).inputPerMillion);
    ScaleSum(c, c', rates.CardOf(model).outputPerMillion);
  }
}
