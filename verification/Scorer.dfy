/** Evaluate: exact match, similarity, drift and the regression alert of one response. */
module Scorer {
  import opened Text
  import opened Similarity
  import opened Rounding

  const BASELINE := 0.92
  const DRIFT_THRESHOLD := 5.0

  datatype ScoreCard = ScoreCard(exactMatch: bool, graded: bool, semanticScore: real, regressionAlert: bool,
                                 driftPercent: real)

  function Min(x: real, y: real): real {
    if x <= y then x else y
  }

  /** The tokens of a text as computeSemanticSimilarity sees them. */
  function Tokens(a: Alphabet, text: string): seq<string> {
    Tokenize(a, NormalizeText(a, text))
  }

  /** Relative loss against the baseline, in percent. */
  function Drift(score: real): real {
    (BASELINE - score) / BASELINE * 100.0
  }

  lemma SelfContains(s: string)
    ensures Contains(s, s)
  {
  }

  /** `similarity` is what computeSemanticSimilarity returned for the normalised texts. */
  function Evaluate(a: Alphabet, response: string, groundTruth: string, similarity: real): (card: ScoreCard)
    ensures !card.graded ==> !card.regressionAlert && card.driftPercent == 0.0 && !card.exactMatch
    ensures card.graded ==> (card.regressionAlert <==> similarity < BASELINE * 0.95)
    ensures card.graded <==> exists i :: 0 <= i < |groundTruth| && !a.isSpace(groundTruth[i])
    ensures card.graded ==>
      (card.exactMatch <==>
       exists before, after :: NormalizeText(a, response) == before + NormalizeText(a, groundTruth) + after)
  {
    BlankIff(a, groundTruth);
    ContainsIff(NormalizeText(a, response), NormalizeText(a, groundTruth));
    SelfContains(NormalizeText(a, response));
    var resp, truth := NormalizeText(a, response), NormalizeText(a, groundTruth);
    var exact := truth != "" && (resp == truth || Contains(resp, truth));
    var score :=
      if truth == "" then Min(1.0, 0.70 + |Split(response, a.isSpace)| as real * 0.002) else similarity;
    var drift := if truth != "" then Drift(score) else 0.0;
    assert truth != "" ==> (drift > DRIFT_THRESHOLD <==> similarity < BASELINE * 0.95);
    ScoreCard(exact, truth != "", RoundTo(score, 1000.0), truth != "" && drift > DRIFT_THRESHOLD, RoundTo(drift, 10.0))
  }

  /** What the similarity of two texts must be. */
  ghost predicate IsSimilarity(s: real, a: Alphabet, response: string, groundTruth: string) {
    IsScore(s, multiset(Tokens(a, response)), multiset(Tokens(a, groundTruth)))
  }

  /** A graded score stays in [0, 1], and its drift between the perfect answer's and 100 percent. */
  lemma GradedScoreRange(a: Alphabet, response: string, groundTruth: string, s: real)
    requires IsSimilarity(s, a, response, groundTruth) && Evaluate(a, response, groundTruth, s).graded
    ensures var card := Evaluate(a, response, groundTruth, s);
      && 0.0 <= card.semanticScore <= 1.0
      && -100.0 * 0.08 / 0.92 <= Drift(s) <= 100.0
      && -8.7 <= card.driftPercent <= 100.0
  {
    ScoreRange(s, multiset(Tokens(a, response)), multiset(Tokens(a, groundTruth)));
    RoundIsMonotone(0.0, s * 1000.0);
    RoundIsMonotone(s * 1000.0, 1000.0);
    assert Round(1000.0) == 1000 && Round(0.0) == 0;
    var d := Drift(s);
    assert -8.7 <= d;
    RoundIsMonotone(-87.0, d * 10.0);
    RoundIsMonotone(d * 10.0, 1000.0);
    assert Round(-87.0) == -87;
  }

  /** What a card reports is the graded score to three digits and the loss against 0.92 to one digit of
      a percent, each the nearest there is. */
  lemma GradedCardIsNearest(a: Alphabet, response: string, groundTruth: string, s: real)
    requires Evaluate(a, response, groundTruth, s).graded
    ensures var card := Evaluate(a, response, groundTruth, s);
      && IsNearest(card.semanticScore, s, 1000.0)
      && exists loss :: s == 0.92 * (1.0 - loss / 100.0) && IsNearest(card.driftPercent, loss, 10.0)
  {
    var card := Evaluate(a, response, groundTruth, s);
    RoundToIsNearest(s, 1000.0);
    RoundToIsNearest(Drift(s), 10.0);
    assert s == 0.92 * (1.0 - Drift(s) / 100.0);
  }

  /** Against a blank ground truth the score counts the words of the response. */
  lemma UngradedScoreCounts(a: Alphabet, response: string, groundTruth: string, s: real)
    requires !Evaluate(a, response, groundTruth, s).graded
    ensures var words := |Split(response, a.isSpace)|;
      Evaluate(a, response, groundTruth, s).semanticScore ==
      if words >= 150 then 1.0 else 0.70 + words as real * 0.002
  {
    var words := |Split(response, a.isSpace)|;
    var raw := Min(1.0, 0.70 + words as real * 0.002);
    BlankIff(a, groundTruth);
    var n := if words >= 150 then 1000 else 700 + 2 * words;
    assert raw * 1000.0 == n as real;
    RoundIff(n as real, n);
  }

  /** Against a blank ground truth nothing is graded, and the score stays in [0.70, 1]. */
  lemma UngradedScoreRange(a: Alphabet, response: string, groundTruth: string, s: real)
    requires NormalizeText(a, groundTruth) == ""
    ensures var card := Evaluate(a, response, groundTruth, s);
      !card.graded && 0.70 <= card.semanticScore <= 1.0
  {
    var raw := Min(1.0, 0.70 + |Split(response, a.isSpace)| as real * 0.002);
    RoundIsMonotone(700.0, raw * 1000.0);
    RoundIsMonotone(raw * 1000.0, 1000.0);
    assert Round(700.0) == 700 && Round(1000.0) == 1000;
  }

  lemma EqualBagsAreProportional(b: Bag)
    ensures Proportional(b, b)
  {
    forall v, w ensures b[v] * b[w] == b[w] * b[v] {
      assert b[v] * b[w] == b[w] * b[v];
    }
  }

  /** Texts with equal normal forms that hold a letter or digit score exactly 1, match exactly and
      raise no alert. */
  lemma EqualTextsScoreOne(a: Alphabet, response: string, groundTruth: string, s: real, i: nat)
    requires NormalizeText(a, response) == NormalizeText(a, groundTruth)
    requires i < |NormalizeText(a, response)| && a.isWord(NormalizeText(a, response)[i])
    requires IsSimilarity(s, a, response, groundTruth)
    ensures s == 1.0
    ensures var card := Evaluate(a, response, groundTruth, s);
      card.graded && card.exactMatch && card.semanticScore == 1.0 && !card.regressionAlert
  {
    var t := NormalizeText(a, response);
    var b := multiset(Tokenize(a, t));
    WordCharGivesToken(a, t, i);
    assert Tokenize(a, t)[0] in b;
    EqualBagsAreProportional(b);
    ScoreRange(s, b, b);
    assert Round(1000.0) == 1000;
  }

  /** Case and white space do not matter: normalising the response first changes nothing. */
  lemma NormalizingFirstChangesNothing(a: Alphabet, response: string, groundTruth: string, s: real)
    requires a.Valid() && IsSimilarity(s, a, response, groundTruth)
    ensures IsSimilarity(s, a, NormalizeText(a, response), groundTruth)
    ensures Evaluate(a, response, groundTruth, s).graded ==>
      Evaluate(a, NormalizeText(a, response), groundTruth, s) == Evaluate(a, response, groundTruth, s)
  {
    NormalizeIdempotent(a, response);
  }
}
