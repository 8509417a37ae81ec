/** What counts as a word of a text, said by positions, and what merging texts makes of their words. */
module Words {
  import opened Prelude
  import opened Text
  import opened Similarity
  import opened Consolidator

  // ---------- Words by position ----------

  predicate Blank(c: char) {
    c in " \t\n\r\U{000B}\U{000C}"
  }

  datatype Span = Span(start: nat, end: nat)

  /** A maximal run of non-blank characters. */
  predicate IsWord(text: string, s: Span) {
    && s.start < s.end <= |text|
    && (forall k :: s.start <= k < s.end ==> !Blank(text[k]))
    && (s.start == 0 || Blank(text[s.start - 1]))
    && (s.end == |text| || Blank(text[s.end]))
  }

  /** The word with its ASCII capitals made small. */
  predicate Spells(word: string, text: string, s: Span)
    requires s.start <= s.end <= |text|
  {
    && |word| == s.end - s.start
    && forall k :: 0 <= k < |word| ==>
         var c := text[s.start + k];
         word[k] as int == if 'A' <= c <= 'Z' then c as int - 'A' as int + 'a' as int else c as int
  }

  /** The spans are the words of the text, in its order, and all of them from `from` on. */
  ghost predicate Covers(spans: seq<Span>, text: string, from: nat) {
    && (forall a :: 0 <= a < |spans| ==> from <= spans[a].start && IsWord(text, spans[a]))
    && InOrder(spans)
    && (forall s :: IsWord(text, s) && from <= s.start ==> s in spans)
  }

  predicate InOrder(spans: seq<Span>) {
    forall a, b :: 0 <= a < b < |spans| ==> spans[a].end < spans[b].start
  }

  /** Each field is what the span at its position holds. */
  predicate Held(fields: seq<string>, text: string, spans: seq<Span>) {
    && |fields| == |spans|
    && forall a :: 0 <= a < |spans| ==>
         spans[a].start <= spans[a].end <= |text| && fields[a] == text[spans[a].start..spans[a].end]
  }

  lemma BlankIsSpace(c: char)
    ensures Blank(c) <==> IsSpace(c)
  {
  }

  /** The position `i` of a scan: a word may have begun at `start`. */
  predicate Scanning(text: string, start: nat, i: nat) {
    && start <= i <= |text|
    && (forall k :: start <= k < i ==> !Blank(text[k]))
    && (start == 0 || Blank(text[start - 1]))
  }

  /** Inside the run that is being scanned only its first position can begin a word. */
  lemma BeginsAtStart(text: string, start: nat, i: nat, s: Span)
    requires Scanning(text, start, i) && IsWord(text, s) && start <= s.start
    ensures s.start == start || i < s.start
  {
  }

  lemma NoWordAtEnd(text: string, start: nat)
    requires Scanning(text, start, |text|)
    ensures forall s :: IsWord(text, s) && start <= s.start ==> s == Span(start, |text|)
  {
    forall s | IsWord(text, s) && start <= s.start ensures s == Span(start, |text|) {
      BeginsAtStart(text, start, |text|, s);
    }
  }

  function Run(start: nat, i: nat): seq<Span> {
    if start < i then [Span(start, i)] else []
  }

  lemma WordEndsAtBlank(text: string, start: nat, i: nat)
    requires Scanning(text, start, i) && i < |text| && Blank(text[i])
    ensures start < i ==> IsWord(text, Span(start, i))
    ensures forall s :: IsWord(text, s) && start <= s.start ==> s in Run(start, i) || i + 1 <= s.start
  {
    forall s | IsWord(text, s) && start <= s.start ensures s in Run(start, i) || i + 1 <= s.start {
      BeginsAtStart(text, start, i, s);
    }
  }

  lemma HeldBoth(a: seq<string>, b: seq<string>, text: string, p: seq<Span>, q: seq<Span>)
    requires Held(a, text, p) && Held(b, text, q)
    ensures Held(a + b, text, p + q)
  {
  }

  lemma CoversCons(first: Span, later: seq<Span>, text: string)
    requires IsWord(text, first) && Covers(later, text, first.end + 1)
    requires forall s :: IsWord(text, s) && first.start <= s.start ==> s == first || first.end + 1 <= s.start
    ensures Covers([first] + later, text, first.start)
  {
    var spans := [first] + later;
    assert forall a :: 0 < a < |spans| ==> spans[a] == later[a - 1];
    assert forall s :: s in spans <==> s == first || s in later;
  }

  lemma RunThenLater(text: string, start: nat, i: nat, later: seq<Span>)
    requires Scanning(text, start, i) && i < |text| && Blank(text[i]) && Covers(later, text, i + 1)
    ensures Covers(Run(start, i) + later, text, start)
  {
    WordEndsAtBlank(text, start, i);
    if start < i {
      CoversCons(Span(start, i), later, text);
    } else {
      assert Run(start, i) + later == later;
    }
  }

  lemma WordThenLater(text: string, start: nat, i: nat, fields: seq<string>, later: seq<Span>)
    requires Scanning(text, start, i) && i < |text| && Blank(text[i])
    requires Held(fields, text, later) && Covers(later, text, i + 1)
    ensures Held(Word(text[start..i]) + fields, text, Run(start, i) + later)
    ensures Covers(Run(start, i) + later, text, start)
  {
    HeldBoth(Word(text[start..i]), fields, text, Run(start, i), later);
    RunThenLater(text, start, i, later);
  }

  lemma {:induction false} FieldsFromAreWords(text: string, start: nat, i: nat) returns (spans: seq<Span>)
    requires Scanning(text, start, i)
    ensures Held(FieldsFrom(text[start..i], text[i..]), text, spans) && Covers(spans, text, start)
    decreases |text| - i
  {
    if i == |text| {
      NoWordAtEnd(text, start);
      spans := Run(start, i);
    } else {
      ScanStep(text, start, i);
      if Blank(text[i]) {
        var later := FieldsFromAreWords(text, i + 1, i + 1);
        WordThenLater(text, start, i, FieldsFrom([], text[i + 1..]), later);
        spans := Run(start, i) + later;
      } else {
        spans := FieldsFromAreWords(text, start, i + 1);
      }
    }
  }

  lemma ScanStep(text: string, start: nat, i: nat)
    requires start <= i < |text|
    ensures FieldsFrom(text[start..i], text[i..])
            == if Blank(text[i]) then Word(text[start..i]) + FieldsFrom([], text[i + 1..])
               else FieldsFrom(text[start..i + 1], text[i + 1..])
    ensures text[i + 1..i + 1] == []
  {
    BlankIsSpace(text[i]);
    assert text[i..][1..] == text[i + 1..];
    assert text[start..i] + [text[i]] == text[start..i + 1];
  }

  /** Splitting at blanks yields the words of the text, all of them, in its order. */
  lemma FieldsAreWords(text: string) returns (spans: seq<Span>)
    ensures Held(Fields(text), text, spans) && Covers(spans, text, 0)
  {
    assert text[0..0] == [] && text[0..] == text;
    spans := FieldsFromAreWords(text, 0, 0);
  }

  function Concat(parts: seq<string>): string {
    if parts == [] then [] else parts[0] + Concat(parts[1..])
  }

  function NonBlanks(text: string): string {
    if text == [] then [] else (if Blank(text[0]) then [] else [text[0]]) + NonBlanks(text[1..])
  }

  lemma {:induction false} FieldsFromKeepText(word: string, text: string)
    ensures Concat(FieldsFrom(word, text)) == word + NonBlanks(text)
    decreases |text|
  {
    if text != [] {
      BlankIsSpace(text[0]);
      if Blank(text[0]) {
        FieldsFromKeepText([], text[1..]);
        assert (Word(word) + FieldsFrom([], text[1..]))[|Word(word)|..] == FieldsFrom([], text[1..]);
      } else {
        FieldsFromKeepText(word + [text[0]], text[1..]);
      }
    }
  }

  /** No other character is lost: one after the other, the fields are the text without its blanks. */
  lemma FieldsKeepText(text: string)
    ensures Concat(Fields(text)) == NonBlanks(text)
  {
    FieldsFromKeepText([], text);
  }

  // ---------- Tokens ----------

  predicate IsLong(s: Span) {
    s.start + 2 < s.end
  }

  /** The spans are the words of more than two characters, in the text's order, and all of them. */
  ghost predicate CoversLong(spans: seq<Span>, text: string) {
    && (forall a :: 0 <= a < |spans| ==> IsWord(text, spans[a]) && IsLong(spans[a]))
    && InOrder(spans)
    && (forall s :: IsWord(text, s) && IsLong(s) ==> s in spans)
  }

  lemma LowerKeepsWords(text: string)
    ensures |Lower(text)| == |text|
    ensures forall s :: IsWord(Lower(text), s) <==> IsWord(text, s)
    ensures forall s: Span :: s.start <= s.end <= |text| ==> Spells(Lower(text)[s.start..s.end], text, s)
  {
    forall k | 0 <= k < |text| ensures Blank(Lower(text)[k]) <==> Blank(text[k]) {
    }
  }

  function LongSpans(spans: seq<Span>): seq<Span> {
    if spans == [] then []
    else LongSpans(spans[..|spans| - 1]) + if IsLong(spans[|spans| - 1]) then [spans[|spans| - 1]] else []
  }

  lemma HeldFront(words: seq<string>, text: string, spans: seq<Span>, word: string, s: Span)
    requires Held(words + [word], text, spans + [s])
    ensures Held(words, text, spans)
    ensures s.start <= s.end <= |text| && word == text[s.start..s.end]
  {
    assert forall a :: 0 <= a < |spans| ==> (words + [word])[a] == words[a] && (spans + [s])[a] == spans[a];
    assert (words + [word])[|words|] == word && (spans + [s])[|spans|] == s;
  }

  lemma {:induction false} LongAreHeld(words: seq<string>, text: string, spans: seq<Span>)
    requires Held(words, text, spans)
    ensures Held(LongWords(words), text, LongSpans(spans))
  {
    if spans != [] {
      var front, last := Pop(spans);
      var earlier, word := Pop(words);
      HeldFront(earlier, text, front, word, last);
      LongAreHeld(earlier, text, front);
    }
  }

  lemma {:induction false} LongAreInOrder(spans: seq<Span>)
    ensures forall s :: s in LongSpans(spans) <==> s in spans && IsLong(s)
    ensures InOrder(spans) ==> InOrder(LongSpans(spans))
  {
    if spans != [] {
      var front, last := Pop(spans);
      LongAreInOrder(front);
      assert forall s :: s in spans <==> s in front || s == last;
      forall a | InOrder(spans) && 0 <= a < |LongSpans(front)| ensures LongSpans(front)[a].end < last.start {
        assert LongSpans(front)[a] in front;
      }
    }
  }

  /** The tokens of a text are its words of more than two characters, made small, all of them, in its order. */
  lemma TokensAreLongWords(text: string) returns (spans: seq<Span>)
    ensures CoversLong(spans, text) && |Tokens(text)| == |spans|
    ensures forall a :: 0 <= a < |spans| ==> Spells(Tokens(text)[a], text, spans[a])
  {
    var all := FieldsAreWords(Lower(text));
    LowerKeepsWords(text);
    LongAreHeld(Fields(Lower(text)), Lower(text), all);
    LongAreInOrder(all);
    spans := LongSpans(all);
    forall a | 0 <= a < |spans| ensures spans[a] in all {
      assert spans[a] in spans;
    }
  }

  /** The word occurs in the text, made small, with blanks or an end of the text on either side, and is long. */
  ghost predicate HasWord(text: string, word: string) {
    exists s :: IsWord(text, s) && IsLong(s) && Spells(word, text, s)
  }

  lemma TokenIff(text: string, word: string)
    ensures word in Tokens(text) <==> HasWord(text, word)
  {
    var spans := TokensAreLongWords(text);
    if word in Tokens(text) {
      var a :| 0 <= a < |Tokens(text)| && Tokens(text)[a] == word;
      assert Spells(word, text, spans[a]);
    }
    forall s | IsWord(text, s) && IsLong(s) && Spells(word, text, s) ensures word in Tokens(text) {
      var a :| 0 <= a < |spans| && spans[a] == s;
      SameSpelling(word, Tokens(text)[a], text, s);
    }
  }

  lemma SameSpelling(a: string, b: string, text: string, s: Span)
    requires s.start <= s.end <= |text| && Spells(a, text, s) && Spells(b, text, s)
    ensures a == b
  {
    assert forall k :: 0 <= k < |a| ==> a[k] as int == b[k] as int;
  }

  /** Two texts are merged if and only if at least three in five of their words occur in both. */
  lemma SimilarIff(a: string, b: string, wordsA: set<string>, wordsB: set<string>)
    requires forall w :: w in wordsA <==> HasWord(a, w)
    requires forall w :: w in wordsB <==> HasWord(b, w)
    ensures Similar(a, b) <==> wordsA + wordsB != {} && 5 * |wordsA * wordsB| >= 3 * |wordsA + wordsB|
    ensures Jaccard(a, b) == if wordsA + wordsB == {} then 0.0 else |wordsA * wordsB| as real / |wordsA + wordsB| as real
  {
    WordSetIs(a, wordsA);
    WordSetIs(b, wordsB);
  }

  lemma WordSetIs(text: string, words: set<string>)
    requires forall w :: w in words <==> HasWord(text, w)
    ensures WordSet(text) == words
  {
    forall w ensures w in WordSet(text) <==> w in words {
      TokenIff(text, w);
    }
  }

  // ---------- Merged texts ----------

  predicate EndsApart(before: string) {
    before != "" ==> before[|before| - 1] == ' '
  }

  predicate StartsApart(after: string) {
    after != "" ==> after[0] == ' ' || after[0] == ';'
  }

  /** The part stands in the text by itself: behind a blank and before a blank or semicolon, or at an end. */
  ghost predicate Stands(text: string, part: string) {
    exists before, after :: text == before + part + after && EndsApart(before) && StartsApart(after)
  }

  lemma StandsWithin(text: string, middle: string, part: string)
    requires Stands(text, middle) && Stands(middle, part)
    ensures Stands(text, part)
  {
    var a, b :| text == a + middle + b && EndsApart(a) && StartsApart(b);
    var c, d :| middle == c + part + d && EndsApart(c) && StartsApart(d);
    Nested(a, c, part, d, b);
    BothApart(a, b, c, d);
    StandsBetween(a + c, part, d + b);
  }

  lemma Nested(a: string, c: string, part: string, d: string, b: string)
    ensures a + (c + part + d) + b == (a + c) + part + (d + b)
  {
  }

  lemma BothApart(a: string, b: string, c: string, d: string)
    requires EndsApart(a) && EndsApart(c) && StartsApart(b) && StartsApart(d)
    ensures EndsApart(a + c) && StartsApart(d + b)
  {
    EmptyIsUnit(a);
    EmptyIsUnit(b);
  }

  lemma StandsBetween(before: string, part: string, after: string)
    requires EndsApart(before) && StartsApart(after)
    ensures Stands(before + part + after, part)
  {
  }

  predicate IsSeparator(s: string) {
    s != "" && EndsApart(s) && StartsApart(s)
  }

  lemma SeparatedStand(front: string, separator: string, last: string)
    requires IsSeparator(separator)
    ensures Stands(front + separator + last, front)
    ensures Stands(front + separator + last, last)
  {
    var behind, ahead := separator + last, front + separator;
    assert behind[0] == separator[0] && ahead[|ahead| - 1] == separator[|separator| - 1];
    StandsBetween([], front, behind);
    assert [] + front + behind == front + separator + last;
    StandsBetween(ahead, last, []);
    assert ahead + last + [] == front + separator + last;
  }

  lemma JoinStep(parts: seq<string>, separator: string)
    requires |parts| > 1 && IsSeparator(separator)
    ensures Stands(Join(parts, separator), Join(parts[..|parts| - 1], separator))
    ensures Stands(Join(parts, separator), parts[|parts| - 1])
  {
    SeparatedStand(Join(parts[..|parts| - 1], separator), separator, parts[|parts| - 1]);
  }

  lemma {:induction false} JoinedStand(parts: seq<string>, separator: string, part: string)
    requires part in parts && IsSeparator(separator)
    ensures Stands(Join(parts, separator), part)
  {
    if |parts| == 1 {
      StandsBetween([], part, []);
      assert [] + part + [] == part;
    } else {
      var front, last := Pop(parts);
      JoinStep(parts, separator);
      if part in front {
        JoinedStand(front, separator, part);
        StandsWithin(Join(parts, separator), Join(front, separator), part);
      }
    }
  }

  /** The elements stand at these positions, in this order. */
  predicate StandAt(found: seq<string>, at: seq<nat>, words: seq<string>) {
    && |at| == |found| && (forall a :: 0 <= a < |at| ==> at[a] < |words| && words[at[a]] == found[a])
    && (forall a, b :: 0 <= a < b < |at| ==> at[a] < at[b])
  }

  lemma StandPush(found: seq<string>, at: seq<nat>, front: seq<string>, last: string)
    requires StandAt(found, at, front)
    ensures StandAt(found, at, front + [last])
    ensures StandAt(found + [last], at + [|front|], front + [last])
  {
  }

  /** New words keep the order in which they first occur. */
  lemma {:induction false} NewWordsInOrder(words: seq<string>, known: set<string>) returns (at: seq<nat>)
    ensures StandAt(NewWords(words, known), at, words)
    ensures forall a, i :: 0 <= a < |at| && 0 <= i < at[a] ==> words[i] != words[at[a]]
  {
    at := [];
    if words != [] {
      var front, last := Pop(words);
      at := NewWordsInOrder(front, known);
      NewWordsAreTheDifference(front, known);
      StandPush(NewWords(front, known), at, front, last);
      assert forall i :: 0 <= i < |front| ==> front[i] in front;
      if last !in known && last !in NewWords(front, known) {
        at := at + [|front|];
      }
    }
  }

  /** What entries add is listed in the order of the entries. */
  lemma {:induction false} DetailsInOrder(primary: Memory, a: seq<Memory>, b: seq<Memory>)
    ensures Details(primary, a + b) == Details(primary, a) + Details(primary, b)
  {
    if b == [] {
      assert a + b == a;
    } else {
      var front, last := PopAppend(a, b);
      DetailsInOrder(primary, a, front);
    }
  }

  lemma {:induction false} DetailIsListed(primary: Memory, others: seq<Memory>, m: Memory)
    requires m in others && UniqueContent(m.content, primary.content) != ""
    ensures UniqueContent(m.content, primary.content) in Details(primary, others)
  {
    var front, last := Pop(others);
    if m in front {
      DetailIsListed(primary, front, m);
    }
  }

  /** A word the primary entry lacks is part of what the other entry adds. */
  lemma NewWordIsAdded(primary: Memory, m: Memory, word: string)
    requires HasWord(m.content, word) && !HasWord(primary.content, word)
    ensures UniqueContent(m.content, primary.content) != ""
    ensures Stands(UniqueContent(m.content, primary.content), word)
  {
    TokenIff(m.content, word);
    TokenIff(primary.content, word);
    var words := NewWords(Tokens(m.content), WordSet(primary.content));
    NewWordsAreTheDifference(Tokens(m.content), WordSet(primary.content));
    JoinedStand(words, " ", word);
    assert |word| > 0;
  }

  lemma DetailsStand(primary: Memory, others: seq<Memory>, detail: string)
    requires detail in Details(primary, others)
    ensures Stands(MergedContent(primary, others), detail)
  {
    var joined := Join(Details(primary, others), "; ");
    JoinedStand(Details(primary, others), "; ", detail);
    StandsBetween(primary.content + "\n\nAdditional context: ", joined, []);
    assert MergedContent(primary, others) == primary.content + "\n\nAdditional context: " + joined + [];
    StandsWithin(MergedContent(primary, others), joined, detail);
  }

  lemma StartsOnNewLine(text: string, added: string)
    ensures text + "\n" <= text + "\n\nAdditional context: " + added
  {
    var heading := "\n\nAdditional context: ";
    assert heading[..1] == "\n";
    assert (text + heading + added)[..|text| + 1] == text + heading[..1];
  }

  lemma AddsBehindNewline(primary: Memory, others: seq<Memory>)
    ensures var merged := MergedContent(primary, others);
            merged == primary.content || primary.content + "\n" <= merged
  {
    StartsOnNewLine(primary.content, Join(Details(primary, others), "; "));
  }

  /** A longer text whose additions start behind a newline keeps the words of the shorter. */
  lemma WordsStay(text: string, longer: string, word: string)
    requires HasWord(text, word) && (longer == text || text + "\n" <= longer)
    ensures HasWord(longer, word)
  {
    if longer != text {
      var s :| IsWord(text, s) && IsLong(s) && Spells(word, text, s);
      assert forall k :: 0 <= k < |text| ==> longer[k] == text[k];
      assert longer[|text|] == (text + "\n")[|text|] == '\n';
      WordStaysAt(text, longer, s);
      assert Spells(word, longer, s);
    }
  }

  lemma WordStaysAt(text: string, longer: string, s: Span)
    requires IsWord(text, s) && |text| < |longer| && longer[|text|] == '\n'
    requires forall k :: 0 <= k < |text| ==> longer[k] == text[k]
    ensures IsWord(longer, s)
  {
  }

  /** The merged text begins with that of a most salient entry, and every word of the others it lacks stands in it. */
  lemma NoWordIsLost(group: seq<Memory>) returns (primary: Memory)
    requires group != []
    ensures primary in group && forall m <- group :: m.salience <= primary.salience
    ensures Merge(group).mergedContent == primary.content || primary.content + "\n" <= Merge(group).mergedContent
    ensures forall m, word :: m in group && HasWord(m.content, word) ==>
              HasWord(primary.content, word) || Stands(Merge(group).mergedContent, word)
  {
    var ordered := PrimaryFirst(group);
    primary := ordered[0];
    AddsBehindNewline(primary, ordered[1..]);
    forall m, word | m in group && HasWord(m.content, word) && !HasWord(primary.content, word)
      ensures Stands(Merge(group).mergedContent, word)
    {
      var k := MaxIndex(group);
      var i :| 0 <= i < |group| && group[i] == m;
      assert m in ordered[1..] by {
        assert ordered[1..][(if i == 0 then k else i) - 1] == m;
      }
      NewWordIsAdded(primary, m, word);
      DetailIsListed(primary, ordered[1..], m);
      DetailsStand(primary, ordered[1..], UniqueContent(m.content, primary.content));
      StandsWithin(Merge(group).mergedContent, UniqueContent(m.content, primary.content), word);
    }
  }

  lemma EmptyOrHas(words: seq<string>)
    ensures words == [] || exists word :: word in words
  {
    assert words != [] ==> words[0] in words;
  }

  /** The primary entry has every word of the other one. */
  ghost predicate Knows(primary: Memory, m: Memory) {
    forall word :: HasWord(m.content, word) ==> HasWord(primary.content, word)
  }

  lemma KnowsAddsNothing(primary: Memory, m: Memory)
    requires Knows(primary, m)
    ensures UniqueContent(m.content, primary.content) == ""
  {
    var words := NewWords(Tokens(m.content), WordSet(primary.content));
    NewWordsAreTheDifference(Tokens(m.content), WordSet(primary.content));
    forall word | word in Tokens(m.content) ensures word in WordSet(primary.content) {
      TokenIff(m.content, word);
      TokenIff(primary.content, word);
    }
    EmptyOrHas(words);
  }

  lemma {:induction false} NothingToAdd(primary: Memory, others: seq<Memory>)
    requires forall m <- others :: Knows(primary, m)
    ensures Details(primary, others) == []
  {
    if others != [] {
      var front, last := Pop(others);
      assert last in others && forall m <- front :: m in others;
      NothingToAdd(primary, front);
      KnowsAddsNothing(primary, last);
    }
  }

  /** The merged text is that of the primary entry alone if and only if no other entry has a word it lacks. */
  lemma MergeAddsNothingIff(primary: Memory, others: seq<Memory>)
    ensures MergedContent(primary, others) == primary.content
            <==> forall m <- others :: Knows(primary, m)
  {
    if forall m <- others :: Knows(primary, m) {
      NothingToAdd(primary, others);
    } else {
      var m :| m in others && !Knows(primary, m);
      var word :| HasWord(m.content, word) && !HasWord(primary.content, word);
      NewWordIsAdded(primary, m, word);
      DetailIsListed(primary, others, m);
      assert |MergedContent(primary, others)| > |primary.content|;
    }
  }
}
