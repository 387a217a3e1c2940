/** Two texts whose score lies where alert and gate disagree. */
module AlertWitness {
  import opened Gate
  import opened GateAccuracy
  import opened Metrics
  import opened Runner
  import opened Scorer
  import opened Similarity
  import opened Text

  /** The letters a and b are what they are in every alphabet. */
  ghost predicate HasLetters(a: Alphabet) {
    a.Valid() && forall c :: c == 'a' || c == 'b' ==> !a.isSpace(c) && a.isWord(c) && a.lower(c) == c
  }

  function Times(c: char, n: nat): (ws: seq<string>)
    ensures |ws| == n && forall i :: 0 <= i < n ==> ws[i] == [c]
  {
    if n == 0 then [] else Times(c, n - 1) + [[c]]
  }

  /** x times the word "a", then y times the word "b". */
  function WordList(x: nat, y: nat): seq<string> {
    Times('a', x) + Times('b', y)
  }

  lemma {:induction false} TimesCount(c: char, n: nat, w: string)
    ensures multiset(Times(c, n))[w] == if w == [c] then n else 0
  {
    if n != 0 {
      TimesCount(c, n - 1, w);
    }
  }

  lemma WordCount(x: nat, y: nat, w: string)
    ensures multiset(WordList(x, y))[w] == if w == "a" then x else if w == "b" then y else 0
  {
    TimesCount('a', x, w);
    TimesCount('b', y, w);
  }

  ghost predicate OnlyLetters(ws: seq<string>) {
    forall i :: 0 <= i < |ws| ==> ws[i] == "a" || ws[i] == "b"
  }

  lemma LettersAreWords(a: Alphabet, ws: seq<string>)
    requires HasLetters(a) && OnlyLetters(ws)
    ensures Words(ws, a.isSpace) && Words(ws, c => !a.isWord(c)) && LowerAll(a, ws) == ws
  {
    forall i | 0 <= i < |ws| ensures LowerAll(a, ws)[i] == ws[i] {
      assert Lower(a, ws[i]) == ws[i];
    }
  }

  /** Normalising and tokenising such a text gives its words back. */
  lemma TokensOfWords(a: Alphabet, ws: seq<string>)
    requires HasLetters(a) && OnlyLetters(ws)
    ensures NormalizeText(a, Join(ws)) == Join(ws) && Tokens(a, Join(ws)) == ws
  {
    LettersAreWords(a, ws);
    SplitJoin(ws, a.isSpace);
    LowerJoin(a, ws);
    SplitJoin(ws, c => !a.isWord(c));
  }

  /** A sum over the two words. */
  lemma DotOfTwo(p: Bag, q: Bag)
    requires forall w :: w in p || w in q ==> w == "a" || w == "b"
    ensures Dot(p, q) == p["a"] * q["a"] + p["b"] * q["b"]
  {
    var s := {"a", "b"};
    assert forall w :: w in p ==> w in s;
    DotWiden(Vocabulary(p, q), s, p, q);
    DotRemove(s, p, q, "a");
    DotRemove(s - {"a"}, p, q, "b");
    assert s - {"a"} - {"b"} == {};
  }

  ghost predicate HasCounts(p: Bag, x: nat, y: nat) {
    p["a"] == x && p["b"] == y && forall w :: w in p ==> w == "a" || w == "b"
  }

  lemma CountsOfWords(x: nat, y: nat)
    ensures HasCounts(multiset(WordList(x, y)), x, y)
  {
    var p := multiset(WordList(x, y));
    forall w ensures p[w] == if w == "a" then x else if w == "b" then y else 0 {
      WordCount(x, y, w);
    }
  }

  lemma NormsAndDot(p: Bag, q: Bag, x: nat, y: nat)
    requires HasCounts(p, x, y) && HasCounts(q, 1, 0) && x > 0
    ensures p != multiset{} && q != multiset{} && Norm(p) == x * x + y * y && Norm(q) == 1 && Dot(p, q) == x
  {
    DotOfTwo(p, p);
    DotOfTwo(q, q);
    DotOfTwo(p, q);
    assert "a" in p && "a" in q;
  }

  lemma ByOne(s: real, n: nat, d: nat)
    requires IsQuotient(s, n, 1, d)
    ensures s >= 0.0 && s * s * n as real == (d * d) as real
  {
  }

  /** The score of x and y against a single "a", squared. */
  lemma SquaredScore(s: real, p: Bag, q: Bag, x: nat, y: nat, n: nat)
    requires HasCounts(p, x, y) && HasCounts(q, 1, 0) && x > 0 && n == x * x + y * y && IsScore(s, p, q)
    ensures s >= 0.0 && s * s * n as real == (x * x) as real
  {
    NormsAndDot(p, q, x, y);
    assert IsQuotient(s, n, 1, x);
    ByOne(s, n, x);
  }

  lemma Between(s: real)
    requires s >= 0.0 && s * s * 6421.0 == 4900.0
    ensures 0.8735 <= s < 0.874
  {
    SquareOrder(0.8735, s);
    SquareOrder(0.874, s);
  }

  lemma SimilarityOfWords(a: Alphabet, s: real, us: seq<string>, ws: seq<string>)
    requires HasLetters(a) && OnlyLetters(us) && OnlyLetters(ws) && IsSimilarity(s, a, Join(us), Join(ws))
    ensures IsScore(s, multiset(us), multiset(ws))
  {
    TokensOfWords(a, us);
    TokensOfWords(a, ws);
  }

  lemma ScoreBetween(s: real, p: Bag, q: Bag, x: nat, y: nat)
    requires HasCounts(p, x, y) && HasCounts(q, 1, 0) && x == 70 && y == 39 && IsScore(s, p, q)
    ensures 0.8735 <= s < 0.874
  {
    SquaredScore(s, p, q, x, y, 6421);
    Between(s);
  }

  /** 70 times "a" and 39 times "b" against the ground truth "a": the score is 70 / sqrt(6421). */
  lemma WitnessScore(a: Alphabet, s: real, x: nat, y: nat, us: seq<string>, ws: seq<string>)
    requires HasLetters(a) && x == 70 && y == 39 && us == WordList(x, y) && ws == WordList(1, 0)
    requires IsSimilarity(s, a, Join(us), Join(ws))
    ensures 0.8735 <= s < 0.874
  {
    SimilarityOfWords(a, s, us, ws);
    CountsOfWords(x, y);
    CountsOfWords(1, 0);
    ScoreBetween(s, multiset(us), multiset(ws), x, y);
  }

  lemma OneLetter()
    ensures Join(WordList(1, 0)) == "a"
  {
    assert WordList(1, 0) == ["a"];
  }

  /** An answer with such a raw score raises an alert, and the gate passes on it. */
  lemma AlertedPasses(e: Setting, job: Job, model: string, outcome: Outcome, v: Verdict, ms: seq<ModelMetric>)
    requires e.rates.Valid() && NormalizeText(e.alphabet, job.groundTruth) != ""
    requires outcome.Response? && !outcome.simulated && 0.8735 <= e.similarity(outcome.text) < 0.874
    requires Aggregates(ms, [Slot(e, job, model, outcome)]) && Judges(v, GradedRows(ms), Percent(DRIFT_THRESHOLD))
    ensures Slot(e, job, model, outcome).regressionAlert && v.passed
  {
    SlotCountsIff(e, job, model, outcome);
    AtDefaultLimit(e.similarity(outcome.text));
    AlertPassesGateIff(v, ms, Slot(e, job, model, outcome), e.similarity(outcome.text));
  }

  /** The texts are such an answer: 70 times "a" and 39 times "b" where "a" is expected. */
  lemma AlertedAnswerPassesGate(e: Setting, job: Job, model: string, outcome: Outcome, x: nat, y: nat, v: Verdict,
                                ms: seq<ModelMetric>)
    requires e.rates.Valid() && HasLetters(e.alphabet) && x == 70 && y == 39
    requires job.groundTruth == "a" && outcome.Response? && !outcome.simulated && outcome.text == Join(WordList(x, y))
    requires IsSimilarity(e.similarity(outcome.text), e.alphabet, outcome.text, "a")
    requires Aggregates(ms, [Slot(e, job, model, outcome)]) && Judges(v, GradedRows(ms), Percent(DRIFT_THRESHOLD))
    ensures Slot(e, job, model, outcome).regressionAlert && v.passed
  {
    OneLetter();
    TokensOfWords(e.alphabet, WordList(1, 0));
    WitnessScore(e.alphabet, e.similarity(outcome.text), x, y, WordList(x, y), WordList(1, 0));
    AlertedPasses(e, job, model, outcome, v, ms);
  }
}
