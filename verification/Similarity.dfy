/** Word-level similarity of two texts, and the words one text adds to another. */
module Similarity {
  import opened Prelude
  import opened Text

  function LowerChar(c: char): char {
    if 'A' <= c <= 'Z' then (c as int + 32) as char else c
  }

  function Lower(text: string): string {
    seq(|text|, i requires 0 <= i < |text| => LowerChar(text[i]))
  }

  function Word(word: string): seq<string> {
    if word == [] then [] else [word]
  }

  /** Maximal runs of non-space characters, `word` being the run already begun. */
  function FieldsFrom(word: string, text: string): seq<string>
    decreases |text|
  {
    if text == [] then Word(word)
    else if IsSpace(text[0]) then Word(word) + FieldsFrom([], text[1..])
    else FieldsFrom(word + [text[0]], text[1..])
  }

  function Fields(text: string): seq<string> {
    FieldsFrom([], text)
  }

  /** Words of more than two characters. */
  function LongWords(words: seq<string>): seq<string> {
    if words == [] then []
    else LongWords(words[..|words| - 1]) + if |words[|words| - 1]| > 2 then [words[|words| - 1]] else []
  }

  function Tokens(text: string): seq<string> {
    LongWords(Fields(Lower(text)))
  }

  function WordSet(text: string): set<string> {
    set w | w in Tokens(text)
  }

  /** Shared words over all words; zero when neither text has any. */
  function Jaccard(a: string, b: string): real {
    var union := WordSet(a) + WordSet(b);
    if |union| == 0 then 0.0 else |WordSet(a) * WordSet(b)| as real / |union| as real
  }

  /** The merge test: at least three of every five words are shared. */
  predicate Similar(a: string, b: string) {
    var union := WordSet(a) + WordSet(b);
    union != {} && 5 * |WordSet(a) * WordSet(b)| >= 3 * |union|
  }

  /** First occurrences of the words that are not in `known`. */
  function NewWords(words: seq<string>, known: set<string>): seq<string> {
    if words == [] then []
    else
      var before, w := NewWords(words[..|words| - 1], known), words[|words| - 1];
      if w in known || w in before then before else before + [w]
  }

  function Join(parts: seq<string>, separator: string): string {
    if parts == [] then []
    else if |parts| == 1 then parts[0]
    else Join(parts[..|parts| - 1], separator) + separator + parts[|parts| - 1]
  }

  function UniqueContent(secondary: string, primary: string): string {
    Join(NewWords(Tokens(secondary), WordSet(primary)), " ")
  }

  // ---------- The code ----------

  method Tokenize(text: string) returns (filtered: seq<string>)
    ensures filtered == Tokens(text)
  {
    var words := Fields(Lower(text));
    filtered := [];
    var i := 0;
    while i < |words|
      invariant 0 <= i <= |words|
      invariant filtered == LongWords(words[..i])
    {
      assert words[..i + 1][..i] == words[..i];
      if |words[i]| > 2 {
        filtered := filtered + [words[i]];
      }
      i := i + 1;
    }
    assert words[..|words|] == words;
  }

  method ToSet(words: seq<string>) returns (s: set<string>)
    ensures s == set w | w in words
  {
    s := {};
    var i := 0;
    while i < |words|
      invariant 0 <= i <= |words|
      invariant s == set w | w in words[..i]
    {
      assert words[..i + 1] == words[..i] + [words[i]];
      s := s + {words[i]};
      i := i + 1;
    }
    assert words[..|words|] == words;
  }

  method JaccardSimilarity(a: string, b: string) returns (similarity: real)
    ensures similarity == Jaccard(a, b)
    ensures similarity >= 0.6 <==> Similar(a, b)
  {
    var tokensA := Tokenize(a);
    var wordsA := ToSet(tokensA);
    var tokensB := Tokenize(b);
    var wordsB := ToSet(tokensB);
    ThresholdIsExact(a, b);
    if |wordsA| == 0 && |wordsB| == 0 {
      return 0.0;
    }
    var intersection: int := CountShared(wordsA, wordsB);
    SizeOfUnion(wordsA, wordsB);
    var union := |wordsA| + |wordsB| - intersection;
    if union == 0 {
      return 0.0;
    }
    similarity := intersection as real / union as real;
  }

  method CountShared(wordsA: set<string>, wordsB: set<string>) returns (intersection: nat)
    ensures intersection == |wordsA * wordsB|
  {
    intersection := 0;
    var rest := wordsA;
    while rest != {}
      invariant rest <= wordsA
      invariant intersection == |(wordsA - rest) * wordsB|
      decreases |rest|
    {
      var w :| w in rest;
      var seen := (wordsA - rest) * wordsB;
      if w in wordsB {
        assert (wordsA - (rest - {w})) * wordsB == seen + {w};
        intersection := intersection + 1;
      } else {
        assert (wordsA - (rest - {w})) * wordsB == seen;
      }
      rest := rest - {w};
    }
    assert (wordsA - {}) * wordsB == wordsA * wordsB;
  }

  method ExtractUniqueContent(secondary: string, primary: string) returns (content: string)
    ensures content == UniqueContent(secondary, primary)
  {
    var primaryTokens := Tokenize(primary);
    var primaryWords := ToSet(primaryTokens);
    var secondaryWords := Tokenize(secondary);
    var unique: seq<string> := [];
    var seen: set<string> := {};
    var i := 0;
    while i < |secondaryWords|
      invariant 0 <= i <= |secondaryWords|
      invariant unique == NewWords(secondaryWords[..i], primaryWords)
      invariant seen == set w | w in unique
    {
      assert secondaryWords[..i + 1][..i] == secondaryWords[..i];
      var w := secondaryWords[i];
      if w !in primaryWords && w !in seen {
        unique := unique + [w];
        seen := seen + {w};
      }
      i := i + 1;
    }
    assert secondaryWords[..|secondaryWords|] == secondaryWords;
    content := Join(unique, " ");
  }

  // ---------- What similarity means ----------

  lemma SizeOfUnion(a: set<string>, b: set<string>)
    ensures |a + b| == |a| + |b| - |a * b|
  {
    assert a + b == a + (b - a);
    assert b == (b - a) + a * b;
  }

  lemma Quotient(x: real, y: real) returns (q: real)
    requires y > 0.0
    ensures q == x / y && q * y == x
  {
    q := x / y;
  }

  lemma CompareProducts(q: real, r: real, y: real)
    requires y > 0.0
    ensures q >= r <==> q * y >= r * y
    ensures q == r <==> q * y == r * y
  {
    if q > r {
      assert (q - r) * y > 0.0;
    } else if q < r {
      assert (r - q) * y > 0.0;
    }
  }

  lemma RatioThreshold(i: nat, u: nat)
    requires u > 0
    ensures i as real / u as real >= 0.6 <==> 5 * i >= 3 * u
  {
    var y := u as real;
    var q := Quotient(i as real, y);
    CompareProducts(q, 0.6, y);
    assert 5.0 * (0.6 * y) == 3.0 * y;
    assert q >= 0.6 <==> i as real >= 0.6 * y;
    assert 5.0 * i as real == (5 * i) as real && 3.0 * y == (3 * u) as real;
  }

  lemma RatioRange(i: nat, u: nat)
    requires i <= u && u > 0
    ensures 0.0 <= i as real / u as real <= 1.0
    ensures i as real / u as real == 1.0 <==> i == u
  {
    var q := Quotient(i as real, u as real);
    CompareProducts(q, 0.0, u as real);
    CompareProducts(1.0, q, u as real);
  }

  /** The real-valued test against 0.6 is the integer test. */
  lemma ThresholdIsExact(a: string, b: string)
    ensures Jaccard(a, b) >= 0.6 <==> Similar(a, b)
  {
    var union := WordSet(a) + WordSet(b);
    if union != {} {
      RatioThreshold(|WordSet(a) * WordSet(b)|, |union|);
    }
  }

  lemma SimilarIsSymmetric(a: string, b: string)
    ensures Similar(a, b) == Similar(b, a)
    ensures Jaccard(a, b) == Jaccard(b, a)
  {
    assert WordSet(a) + WordSet(b) == WordSet(b) + WordSet(a);
    assert WordSet(a) * WordSet(b) == WordSet(b) * WordSet(a);
  }

  /** The measure runs from 0 to 1, and is 1 exactly for equal, non-empty word sets. */
  lemma JaccardRange(a: string, b: string)
    ensures 0.0 <= Jaccard(a, b) <= 1.0
    ensures Jaccard(a, b) == 1.0 <==> WordSet(a) == WordSet(b) != {}
  {
    var shared, union := WordSet(a) * WordSet(b), WordSet(a) + WordSet(b);
    assert shared <= union;
    SubsetSize(shared, union);
    assert shared == union <==> WordSet(a) == WordSet(b);
    if union != {} {
      RatioRange(|shared|, |union|);
    }
  }

  lemma SubsetSize(a: set<string>, b: set<string>)
    requires a <= b
    ensures |a| <= |b| && (|a| == |b| <==> a == b)
  {
    assert b == a + (b - a);
  }

  /** What a text adds to another: exactly the words the other lacks, each once. */
  lemma {:induction false} NewWordsAreTheDifference(words: seq<string>, known: set<string>)
    ensures Distinct(NewWords(words, known))
    ensures forall w :: w in NewWords(words, known) <==> w in words && w !in known
  {
    if words != [] {
      var front, last := Pop(words);
      NewWordsAreTheDifference(front, known);
    }
  }
}
