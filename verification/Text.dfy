/** Text normalisation and tokenising. The classes of Unicode characters are a parameter: only
    the facts in `Alphabet.Valid` about them are used. */
module Text {

  datatype Alphabet = Alphabet(isSpace: char -> bool, isWord: char -> bool, lower: char -> char) {
    /** Lowering is idempotent and keeps the space class; a space is no letter or digit. */
    ghost predicate Valid() {
      && (forall c :: lower(lower(c)) == lower(c))
      && (forall c :: isSpace(lower(c)) == isSpace(c))
      && (forall c :: isSpace(c) ==> !isWord(c))
      && isSpace(' ') && lower(' ') == ' '
    }
  }

  /** Length of the leading run without separators. */
  function WordLength(s: string, sep: char -> bool): (n: nat)
    ensures n <= |s| && (forall i :: 0 <= i < n ==> !sep(s[i])) && (n < |s| ==> sep(s[n]))
  {
    if s == [] || sep(s[0]) then 0 else 1 + WordLength(s[1..], sep)
  }

  /** The maximal separator-free runs: strings.Fields and strings.FieldsFunc. */
  function Split(s: string, sep: char -> bool): seq<string>
    decreases |s|
  {
    if s == [] then []
    else if sep(s[0]) then Split(s[1..], sep)
    else
      var n := WordLength(s, sep);
      [s[..n]] + Split(s[n..], sep)
  }

  /** strings.Join with a blank. */
  function Join(ws: seq<string>): string {
    if ws == [] then []
    else if |ws| == 1 then ws[0]
    else ws[0] + " " + Join(ws[1..])
  }

  function Lower(a: Alphabet, s: string): (t: string)
    ensures |t| == |s| && forall i :: 0 <= i < |s| ==> t[i] == a.lower(s[i])
  {
    if s == [] then [] else [a.lower(s[0])] + Lower(a, s[1..])
  }

  function LowerAll(a: Alphabet, ws: seq<string>): (vs: seq<string>)
    ensures |vs| == |ws| && forall i :: 0 <= i < |ws| ==> vs[i] == Lower(a, ws[i])
  {
    if ws == [] then [] else [Lower(a, ws[0])] + LowerAll(a, ws[1..])
  }

  function NormalizeText(a: Alphabet, s: string): string {
    Lower(a, Join(Split(s, a.isSpace)))
  }

  function Tokenize(a: Alphabet, s: string): seq<string> {
    Split(s, c => !a.isWord(c))
  }

  /** Non-empty and free of separators. */
  ghost predicate Words(ws: seq<string>, sep: char -> bool) {
    forall i :: 0 <= i < |ws| ==> ws[i] != [] && forall k :: 0 <= k < |ws[i]| ==> !sep(ws[i][k])
  }

  lemma {:induction false} SplitGivesWords(s: string, sep: char -> bool)
    ensures Words(Split(s, sep), sep)
    decreases |s|
  {
    if s != [] {
      SplitGivesWords(if sep(s[0]) then s[1..] else s[WordLength(s, sep)..], sep);
    }
  }

  /** A separator ends one part and starts the next. */
  lemma {:induction false} SplitAppend(a: string, c: char, b: string, sep: char -> bool)
    requires sep(c)
    ensures Split(a + [c] + b, sep) == Split(a, sep) + Split(b, sep)
    decreases |a|
  {
    var s := a + [c] + b;
    if a == [] {
      assert s[1..] == b;
    } else if sep(a[0]) {
      assert s[1..] == a[1..] + [c] + b;
      SplitAppend(a[1..], c, b, sep);
    } else {
      var n := WordLength(a, sep);
      FirstWord(a, c, b, sep);
      SplitAppend(a[n..], c, b, sep);
    }
  }

  lemma FirstWord(a: string, c: char, b: string, sep: char -> bool)
    requires sep(c) && a != [] && !sep(a[0])
    ensures var n := WordLength(a, sep);
      && n > 0 && Split(a, sep) == [a[..n]] + Split(a[n..], sep)
      && Split(a + [c] + b, sep) == [a[..n]] + Split(a[n..] + [c] + b, sep)
  {
    var s, n := a + [c] + b, WordLength(a, sep);
    WordLengthAppend(a, c, b, sep);
    assert s[..n] == a[..n] && s[n..] == a[n..] + [c] + b;
  }

  lemma {:induction false} WordLengthAppend(a: string, c: char, b: string, sep: char -> bool)
    requires sep(c)
    ensures WordLength(a + [c] + b, sep) == WordLength(a, sep)
  {
    if a != [] && !sep(a[0]) {
      assert (a + [c] + b)[1..] == a[1..] + [c] + b;
      WordLengthAppend(a[1..], c, b, sep);
    }
  }

  lemma SplitWord(w: string, sep: char -> bool)
    requires Words([w], sep)
    ensures Split(w, sep) == [w]
  {
    assert [w][0] == w;
    var n := WordLength(w, sep);
    assert n == |w| && w[..n] == w && w[n..] == [];
  }

  /** Splitting inverts joining. */
  lemma {:induction false} SplitJoin(ws: seq<string>, sep: char -> bool)
    requires Words(ws, sep) && sep(' ')
    ensures Split(Join(ws), sep) == ws
  {
    if ws != [] {
      assert Words([ws[0]], sep);
      SplitWord(ws[0], sep);
      assert ws == [ws[0]] + ws[1..];
      if |ws| > 1 {
        SplitJoin(ws[1..], sep);
        SplitAppend(ws[0], ' ', Join(ws[1..]), sep);
      }
    }
  }

  lemma LowerAppend(a: Alphabet, s: string, t: string)
    ensures Lower(a, s + t) == Lower(a, s) + Lower(a, t)
  {
  }

  lemma {:induction false} LowerJoin(a: Alphabet, ws: seq<string>)
    requires a.Valid()
    ensures Lower(a, Join(ws)) == Join(LowerAll(a, ws))
  {
    var vs := LowerAll(a, ws);
    if |ws| > 1 {
      LowerJoin(a, ws[1..]);
      assert vs[1..] == LowerAll(a, ws[1..]);
      LowerAppend(a, ws[0] + " ", Join(ws[1..]));
      LowerAppend(a, ws[0], " ");
      assert Lower(a, " ") == " ";
    }
  }

  lemma LowerKeepsWords(a: Alphabet, ws: seq<string>)
    requires a.Valid() && Words(ws, a.isSpace)
    ensures Words(LowerAll(a, ws), a.isSpace)
  {
    var vs := LowerAll(a, ws);
    forall i | 0 <= i < |vs| ensures vs[i] != [] && forall k :: 0 <= k < |vs[i]| ==> !a.isSpace(vs[i][k]) {
      assert vs[i] == Lower(a, ws[i]) && ws[i] != [];
    }
  }

  lemma LowerTwice(a: Alphabet, s: string)
    requires a.Valid()
    ensures Lower(a, Lower(a, s)) == Lower(a, s)
  {
  }

  lemma LowerAllTwice(a: Alphabet, ws: seq<string>)
    requires a.Valid()
    ensures LowerAll(a, LowerAll(a, ws)) == LowerAll(a, ws)
  {
    forall i | 0 <= i < |ws| ensures LowerAll(a, LowerAll(a, ws))[i] == LowerAll(a, ws)[i] {
      LowerTwice(a, ws[i]);
    }
  }

  /** Normalising is idempotent. */
  lemma NormalizeIdempotent(a: Alphabet, s: string)
    requires a.Valid()
    ensures NormalizeText(a, NormalizeText(a, s)) == NormalizeText(a, s)
  {
    var ws := Split(s, a.isSpace);
    SplitGivesWords(s, a.isSpace);
    LowerJoin(a, ws);
    LowerKeepsWords(a, ws);
    SplitJoin(LowerAll(a, ws), a.isSpace);
    LowerJoin(a, LowerAll(a, ws));
    LowerAllTwice(a, ws);
  }

  /** Two texts have the same normal form exactly when their lower-cased words are the same. */
  lemma SameNormalFormIff(a: Alphabet, s: string, t: string)
    requires a.Valid()
    ensures NormalizeText(a, s) == NormalizeText(a, t) <==>
      LowerAll(a, Split(s, a.isSpace)) == LowerAll(a, Split(t, a.isSpace))
    ensures Split(NormalizeText(a, s), a.isSpace) == LowerAll(a, Split(s, a.isSpace))
  {
    NormalFormHasWords(a, s);
    NormalFormHasWords(a, t);
  }

  /** The normal form is the lower-cased words, one blank apart. */
  lemma NormalFormHasWords(a: Alphabet, s: string)
    requires a.Valid()
    ensures Split(NormalizeText(a, s), a.isSpace) == LowerAll(a, Split(s, a.isSpace))
    ensures NormalizeText(a, s) == Join(LowerAll(a, Split(s, a.isSpace)))
  {
    var ws := Split(s, a.isSpace);
    SplitGivesWords(s, a.isSpace);
    LowerJoin(a, ws);
    LowerKeepsWords(a, ws);
    SplitJoin(LowerAll(a, ws), a.isSpace);
  }

  lemma {:induction false} NoWordsIff(s: string, sep: char -> bool)
    ensures Split(s, sep) == [] <==> forall i :: 0 <= i < |s| ==> sep(s[i])
  {
    if s != [] && sep(s[0]) {
      NoWordsIff(s[1..], sep);
      assert (forall i :: 0 <= i < |s| ==> sep(s[i])) <==> forall i :: 0 <= i < |s[1..]| ==> sep(s[1..][i]);
    }
  }

  lemma JoinIsEmptyIff(ws: seq<string>, sep: char -> bool)
    requires Words(ws, sep)
    ensures Join(ws) == "" <==> ws == []
  {
    if ws != [] {
      assert ws[0] != [];
    }
  }

  /** A normal form is empty exactly for texts of spaces only. */
  lemma BlankIff(a: Alphabet, s: string)
    ensures NormalizeText(a, s) == "" <==> forall i :: 0 <= i < |s| ==> a.isSpace(s[i])
  {
    SplitGivesWords(s, a.isSpace);
    NoWordsIff(s, a.isSpace);
    JoinIsEmptyIff(Split(s, a.isSpace), a.isSpace);
  }

  lemma {:induction false} LowerKeepsWordLength(a: Alphabet, s: string)
    requires a.Valid()
    ensures WordLength(Lower(a, s), a.isSpace) == WordLength(s, a.isSpace)
  {
    if s != [] && !a.isSpace(s[0]) {
      assert Lower(a, s)[1..] == Lower(a, s[1..]);
      LowerKeepsWordLength(a, s[1..]);
    }
  }

  /** Lowering does not move the word boundaries. */
  lemma {:induction false} LowerSplit(a: Alphabet, s: string)
    requires a.Valid()
    ensures Split(Lower(a, s), a.isSpace) == LowerAll(a, Split(s, a.isSpace))
    decreases |s|
  {
    if s != [] {
      var t, n := Lower(a, s), WordLength(s, a.isSpace);
      if a.isSpace(s[0]) {
        assert t[1..] == Lower(a, s[1..]);
        LowerSplit(a, s[1..]);
      } else {
        LowerKeepsWordLength(a, s);
        assert t[..n] == Lower(a, s[..n]) && t[n..] == Lower(a, s[n..]);
        LowerSplit(a, s[n..]);
      }
    }
  }

  /** Rewriting the white space does not change the tokens. */
  lemma {:induction false} SplitFields(s: string, space: char -> bool, sep: char -> bool)
    requires (forall c :: space(c) ==> sep(c)) && space(' ')
    ensures Split(Join(Split(s, space)), sep) == Split(s, sep)
    decreases |s|
  {
    if s != [] {
      if space(s[0]) {
        SplitFields(s[1..], space, sep);
      } else {
        var n := WordLength(s, space);
        var w, rest := s[..n], s[n..];
        var ws := Split(rest, space);
        SplitFields(rest, space, sep);
        assert s == w + rest;
        assert ([w] + ws)[1..] == ws;
        if rest == [] {
          assert s == w;
        } else {
          assert s == w + [rest[0]] + rest[1..];
          SplitAppend(w, rest[0], rest[1..], sep);
          if ws != [] {
            SplitAppend(w, ' ', Join(ws), sep);
          }
        }
      }
    }
  }

  /** Whatever is no letter or digit ends one token and starts the next. */
  lemma TokenizeAppend(a: Alphabet, s: string, c: char, t: string)
    requires !a.isWord(c)
    ensures Tokenize(a, s + [c] + t) == Tokenize(a, s) + Tokenize(a, t)
  {
    SplitAppend(s, c, t, x => !a.isWord(x));
  }

  /** Letters and digits alone are one token; the empty text has none. */
  lemma TokenizeWord(a: Alphabet, w: string)
    requires forall k :: 0 <= k < |w| ==> a.isWord(w[k])
    ensures Tokenize(a, w) == if w == [] then [] else [w]
  {
    if w != [] {
      SplitWord(w, x => !a.isWord(x));
    }
  }

  /** The tokens of the normalised text are the tokens of the lowered text. */
  lemma NormalizeKeepsTokens(a: Alphabet, s: string)
    requires a.Valid()
    ensures Tokenize(a, NormalizeText(a, s)) == Tokenize(a, Lower(a, s))
  {
    LowerJoin(a, Split(s, a.isSpace));
    LowerSplit(a, s);
    SplitFields(Lower(a, s), a.isSpace, c => !a.isWord(c));
  }

  /** A letter or digit gives a token. */
  lemma {:induction false} WordCharGivesToken(a: Alphabet, s: string, i: nat)
    requires i < |s| && a.isWord(s[i])
    ensures Tokenize(a, s) != []
    decreases |s|
  {
    if !a.isWord(s[0]) {
      WordCharGivesToken(a, s[1..], i - 1);
    }
  }

  /** strings.Contains */
  predicate Contains(s: string, part: string) {
    part <= s || (s != [] && Contains(s[1..], part))
  }

  lemma {:induction false} ContainsMiddle(before: string, part: string, after: string)
    ensures Contains(before + part + after, part)
  {
    if before == [] {
      assert before + part + after == part + after;
    } else {
      assert (before + part + after)[1..] == before[1..] + part + after;
      ContainsMiddle(before[1..], part, after);
    }
  }

  /** part occurs somewhere in s. */
  ghost predicate Occurs(s: string, part: string) {
    exists before, after :: s == before + part + after
  }

  lemma {:induction false} ContainedOccurs(s: string, part: string)
    requires Contains(s, part)
    ensures Occurs(s, part)
  {
    if part <= s {
      assert s == [] + part + s[|part|..];
    } else {
      ContainedOccurs(s[1..], part);
      var before, after :| s[1..] == before + part + after;
      assert s == ([s[0]] + before) + part + after;
    }
  }

  /** Contains finds exactly the parts that occur. */
  lemma ContainsIff(s: string, part: string)
    ensures Contains(s, part) <==> Occurs(s, part)
  {
    if Contains(s, part) {
      ContainedOccurs(s, part);
    }
    if Occurs(s, part) {
      var before, after :| s == before + part + after;
      ContainsMiddle(before, part, after);
    }
  }

  lemma {:induction false} TooShortToContain(s: string, part: string)
    requires |s| < |part|
    ensures !Contains(s, part)
  {
    if s != [] {
      TooShortToContain(s[1..], part);
    }
  }
}
