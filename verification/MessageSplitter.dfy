/** Splitting a long Discord message into chunks at natural boundaries, sparing fenced code blocks. */
module MessageSplitter {
  import opened Prelude
  import opened Text

  const BLOCK_BUFFER := 500
  const NEWLINE_WINDOW := 200
  const SPACE_WINDOW := 100

  // ---------- Fences and breaks ----------

  /** Three backticks start at position `i`. */
  predicate FenceAt(s: string, i: nat) {
    i + 2 < |s| && s[i] == '`' && s[i + 1] == '`' && s[i + 2] == '`'
  }

  /** Number of fences met when scanning from `i`, stepping over each fence. */
  function Fences(s: string, i: nat): nat
    decreases |s| - i
  {
    if i >= |s| then 0
    else if FenceAt(s, i) then 1 + Fences(s, i + 3)
    else Fences(s, i + 1)
  }

  predicate Balanced(s: string) {
    Fences(s, 0) % 2 == 0
  }

  /** Position of the first fence at or after `i`, or the length of the text. */
  function FirstFence(s: string, i: nat): (p: nat)
    requires i <= |s|
    ensures i <= p <= |s|
    ensures p < |s| ==> FenceAt(s, p)
    ensures forall k :: i <= k < p ==> !FenceAt(s, k)
    decreases |s| - i
  {
    if i == |s| || FenceAt(s, i) then i else FirstFence(s, i + 1)
  }

  /** The first fence of a text with an odd number of them, or -1. */
  function UnclosedBlock(s: string): int {
    if Balanced(s) then -1 else FirstFence(s, 0)
  }

  /** Position just after the first fence at or after `i`, or -1. */
  function ClosingEnd(s: string, i: nat): int
    requires i <= |s|
  {
    var p := FirstFence(s, i);
    if p < |s| then p + 3 else -1
  }

  datatype Break = Newline | Blank

  predicate IsBreak(c: char, b: Break) {
    match b
    case Newline => c == '\n'
    case Blank => c == ' ' || c == '\t'
  }

  /** The last break among the last `window` characters, or -1. */
  function LastBreak(s: string, window: nat, b: Break): (i: int)
    ensures -1 <= i < |s|
    ensures i >= 0 ==> IsBreak(s[i], b) && |s| - window <= i
    ensures forall k :: i < k < |s| && |s| - window <= k ==> !IsBreak(s[k], b)
  {
    if s == [] || window == 0 then -1
    else if IsBreak(s[|s| - 1], b) then |s| - 1
    else LastBreak(s[..|s| - 1], window - 1, b)
  }

  /** A break inside the first `end` characters, a newline by preference; `end` itself without one. */
  function NaturalEnd(content: string, end: nat): (cut: nat)
    requires end <= |content|
    ensures cut <= end && (end > 0 ==> cut > 0)
    ensures cut < end ==> IsSpace(content[cut])
  {
    var newline := LastBreak(content[..end], NEWLINE_WINDOW, Newline);
    if newline > 0 then newline
    else
      var space := LastBreak(content[..end], SPACE_WINDOW, Blank);
      if space > 0 then space else end
  }

  /** Where the next chunk of an over-long content ends. */
  function Cut(content: string, limit: nat): (cut: nat)
    requires 0 < limit < |content|
    ensures 0 < cut <= limit + BLOCK_BUFFER && cut <= |content|
  {
    var natural := NaturalEnd(content, limit);
    var open := UnclosedBlock(content[..natural]);
    if open < 0 then natural
    else if |content| <= limit + BLOCK_BUFFER then |content|
    else
      var closing := ClosingEnd(content, natural);
      if 0 < closing <= limit + BLOCK_BUFFER then closing
      else
        var before := NaturalEnd(content, open);
        if before == 0 then limit else before
  }

  function Split(content: string, limit: nat): seq<string>
    requires limit > 0
    decreases |content|
  {
    if content == [] then []
    else if |content| <= limit then [content]
    else
      var cut := Cut(content, limit);
      [content[..cut]] + Split(Trim(content[cut..]), limit)
  }

  // ---------- The code ----------

  method FindLastUnclosedCodeBlock(text: string) returns (idx: int)
    ensures idx == UnclosedBlock(text)
  {
    var count: nat := 0;
    var lastOpenIdx := -1;
    var i := 0;
    while i < |text|
      invariant 0 <= i
      invariant count + Fences(text, i) == Fences(text, 0)
      invariant if count == 0 then i <= |text| && FirstFence(text, 0) == FirstFence(text, i)
                else lastOpenIdx == FirstFence(text, 0)
      decreases |text| - i
    {
      if FenceAt(text, i) {
        if count == 0 {
          lastOpenIdx := i;
        }
        count := count + 1;
        i := i + 2;
      }
      i := i + 1;
    }
    if count % 2 == 1 {
      return lastOpenIdx;
    }
    return -1;
  }

  method FindNextClosingCodeBlock(text: string, startIdx: nat) returns (idx: int)
    requires startIdx <= |text|
    ensures idx == ClosingEnd(text, startIdx)
  {
    var i := startIdx;
    while i < |text|
      invariant startIdx <= i <= |text|
      invariant FirstFence(text, startIdx) == FirstFence(text, i)
    {
      if FenceAt(text, i) {
        return i + 3;
      }
      i := i + 1;
    }
    return -1;
  }

  method FindLastNewline(s: string, searchWindow: nat) returns (idx: int)
    ensures idx == LastBreak(s, searchWindow, Newline)
  {
    var searchStart := |s| - searchWindow;
    if searchStart < 0 {
      searchStart := 0;
    }
    var i := |s| - 1;
    while i >= searchStart
      invariant searchStart - 1 <= i < |s|
      invariant forall k :: i < k < |s| ==> s[k] != '\n'
    {
      if s[i] == '\n' {
        return i;
      }
      i := i - 1;
    }
    return -1;
  }

  method FindLastSpace(s: string, searchWindow: nat) returns (idx: int)
    ensures idx == LastBreak(s, searchWindow, Blank)
  {
    var searchStart := |s| - searchWindow;
    if searchStart < 0 {
      searchStart := 0;
    }
    var i := |s| - 1;
    while i >= searchStart
      invariant searchStart - 1 <= i < |s|
      invariant forall k :: i < k < |s| ==> s[k] != ' ' && s[k] != '\t'
    {
      if s[i] == ' ' || s[i] == '\t' {
        return i;
      }
      i := i - 1;
    }
    return -1;
  }

  /** The body of the splitting loop: where the chunk at the front of `content` ends. */
  method FindCut(content: string, limit: nat) returns (msgEnd: int)
    requires 0 < limit < |content|
    ensures msgEnd == Cut(content, limit)
  {
    msgEnd := FindLastNewline(content[..limit], NEWLINE_WINDOW);
    if msgEnd <= 0 {
      msgEnd := FindLastSpace(content[..limit], SPACE_WINDOW);
    }
    if msgEnd <= 0 {
      msgEnd := limit;
    }
    assert msgEnd == NaturalEnd(content, limit);

    var unclosedIdx := FindLastUnclosedCodeBlock(content[..msgEnd]);
    if unclosedIdx >= 0 {
      var extendedLimit := limit + BLOCK_BUFFER;
      if |content| > extendedLimit {
        var closingIdx := FindNextClosingCodeBlock(content, msgEnd);
        if closingIdx > 0 && closingIdx <= extendedLimit {
          msgEnd := closingIdx;
        } else {
          msgEnd := FindLastNewline(content[..unclosedIdx], NEWLINE_WINDOW);
          if msgEnd <= 0 {
            msgEnd := FindLastSpace(content[..unclosedIdx], SPACE_WINDOW);
          }
          if msgEnd <= 0 {
            msgEnd := unclosedIdx;
          }
          assert msgEnd == NaturalEnd(content, unclosedIdx);
        }
      } else {
        msgEnd := |content|;
      }
    }
    if msgEnd <= 0 {
      msgEnd := limit;
    }
  }

  method SplitMessage(text: string, limit: nat) returns (messages: seq<string>)
    requires limit > 0
    ensures messages == Split(text, limit)
  {
    messages := [];
    var content := text;
    while |content| > 0
      invariant messages + Split(content, limit) == Split(text, limit)
      decreases |content|
    {
      if |content| <= limit {
        messages := messages + [content];
        break;
      }
      var msgEnd := FindCut(content, limit);
      SplitOne(messages, content, limit);
      messages := messages + [content[..msgEnd]];
      content := Trim(content[msgEnd..]);
    }
  }

  lemma SplitOne(messages: seq<string>, content: string, limit: nat)
    requires 0 < limit < |content|
    ensures var cut := Cut(content, limit);
            messages + [content[..cut]] + Split(Trim(content[cut..]), limit) == messages + Split(content, limit)
  {
    var cut := Cut(content, limit);
    Regroup(messages, [content[..cut]], Split(Trim(content[cut..]), limit));
  }

  // ---------- Bounds and losslessness ----------

  lemma {:induction false} ChunksAreBounded(content: string, limit: nat)
    requires limit > 0
    ensures forall chunk <- Split(content, limit) :: 0 < |chunk| <= limit + BLOCK_BUFFER
    decreases |content|
  {
    if |content| > limit {
      ChunksAreBounded(Trim(content[Cut(content, limit)..]), limit);
    }
  }

  /** The content is the chunks in order, with only whitespace dropped between them or at the end. */
  ghost predicate Covers(content: string, chunks: seq<string>)
    decreases |chunks|
  {
    if chunks == [] then AllSpace(content)
    else
      && chunks[0] <= content
      && exists rest: string, gap: string ::
           AllSpace(gap) && content == chunks[0] + gap + rest && Covers(rest, chunks[1..])
  }

  lemma {:induction false} CoversTrailing(content: string, chunks: seq<string>, tail: string)
    requires Covers(content, chunks) && AllSpace(tail)
    ensures Covers(content + tail, chunks)
    decreases |chunks|
  {
    if chunks != [] {
      var rest: string, gap: string :|
        AllSpace(gap) && content == chunks[0] + gap + rest && Covers(rest, chunks[1..]);
      CoversTrailing(rest, chunks[1..], tail);
      assert content + tail == chunks[0] + gap + (rest + tail);
    }
  }

  lemma CoversChunk(content: string, cut: nat, gap: string, rest: string, chunks: seq<string>)
    requires cut <= |content| && content[cut..] == gap + rest
    requires AllSpace(gap) && Covers(rest, chunks)
    ensures Covers(content, [content[..cut]] + chunks)
  {
    var chunk := content[..cut];
    assert ([chunk] + chunks)[1..] == chunks;
    assert content == chunk + content[cut..];
    assert content == chunk + gap + rest;
  }

  lemma {:induction false} SplitLosesOnlyWhitespace(content: string, limit: nat)
    requires limit > 0
    ensures Covers(content, Split(content, limit))
    decreases |content|
  {
    if content == [] {
    } else if |content| <= limit {
      assert content == content + [] + [] && Covers([], [content][1..]);
    } else {
      var cut := Cut(content, limit);
      var rest := Trim(content[cut..]);
      SplitLosesOnlyWhitespace(rest, limit);
      var gap, tail := TrimParts(content[cut..]);
      CoversTrailing(rest, Split(rest, limit), tail);
      CoversChunk(content, cut, gap, rest + tail, Split(rest, limit));
    }
  }

  // ---------- Fence balance ----------

  /** Where a fence scan from `i` stops for lack of three more characters. */
  function ScanEnd(s: string, i: nat): (q: nat)
    requires i <= |s|
    ensures i <= q <= |s| && |s| <= q + 2
    decreases |s| - i
  {
    if i + 2 >= |s| then i
    else if FenceAt(s, i) then ScanEnd(s, i + 3)
    else ScanEnd(s, i + 1)
  }

  /** Scanning a longer text repeats the scan of its prefix and goes on from where that one stopped. */
  lemma {:induction false} ScanExtends(s: string, t: string, i: nat)
    requires i <= |s| && s <= t
    ensures Fences(t, i) == Fences(s, i) + Fences(t, ScanEnd(s, i))
    decreases |s| - i
  {
    if i + 2 >= |s| {
      NoFences(s, i, |s|);
    } else if FenceAt(s, i) {
      ScanExtends(s, t, i + 3);
    } else {
      ScanExtends(s, t, i + 1);
    }
  }

  lemma {:induction false} NoFences(s: string, i: nat, j: nat)
    requires i <= j <= |s| && forall k :: i <= k < j ==> !FenceAt(s, k)
    ensures Fences(s, i) == Fences(s, j)
    decreases j - i
  {
    if i < j {
      NoFences(s, i + 1, j);
    }
  }

  predicate Unclosed(content: string, limit: nat)
    requires 0 < limit < |content|
  {
    !Balanced(content[..NaturalEnd(content, limit)]) && |content| > limit + BLOCK_BUFFER
  }

  predicate ClosesInBuffer(content: string, limit: nat)
    requires 0 < limit < |content|
  {
    0 < ClosingEnd(content, NaturalEnd(content, limit)) <= limit + BLOCK_BUFFER
  }

  /** The content begins with a block that does not close within the buffer. */
  predicate BlockTooLong(content: string, limit: nat)
    requires 0 < limit < |content|
  {
    Unclosed(content, limit) && !ClosesInBuffer(content, limit) && FenceAt(content, 0)
  }

  /** The natural cut runs through a fence, and the chunk is extended to a further, separate fence. */
  predicate FenceAcrossCut(content: string, limit: nat)
    requires 0 < limit < |content|
  {
    && Unclosed(content, limit) && ClosesInBuffer(content, limit)
    && var natural := NaturalEnd(content, limit);
    var across := FirstFence(content, ScanEnd(content[..natural], 0));
    across < natural && across + 3 <= FirstFence(content, natural)
  }

  /** Cutting at a newline or blank never runs through a fence. */
  lemma BreakIsNotInFence(content: string, limit: nat)
    requires 0 < limit < |content| && NaturalEnd(content, limit) < limit
    ensures !FenceAcrossCut(content, limit)
  {
  }

  lemma ExtensionParity(content: string, natural: nat)
    requires natural <= |content| && FirstFence(content, natural) < |content|
    ensures var closing := FirstFence(content, natural);
            var across := FirstFence(content, ScanEnd(content[..natural], 0));
            Fences(content[..closing + 3], 0) == Fences(content[..natural], 0)
                                                 + if across < natural && across + 3 <= closing then 2 else 1
  {
    var closing := FirstFence(content, natural);
    var s, t := content[..natural], content[..closing + 3];
    var q := ScanEnd(s, 0);
    var across := FirstFence(content, q);
    ScanExtends(s, t, 0);
    assert forall k :: 0 <= k ==> (FenceAt(t, k) <==> FenceAt(content, k) && k <= closing);
    NoFences(t, q, across);
    assert Fences(t, closing) == 1;
    if across < natural {
      if across + 3 <= closing {
        NoFences(t, across + 3, closing);
      } else {
        NoFences(t, across + 3, |t|);
      }
    }
  }

  lemma FallbackKeepsBlockOpen(content: string, limit: nat)
    requires 0 < limit < |content| && BlockTooLong(content, limit)
    ensures !Balanced(content[..limit])
  {
    var natural := NaturalEnd(content, limit);
    if natural < limit {
      var s, t := content[..natural], content[..limit];
      ScanExtends(s, t, 0);
      var q := ScanEnd(s, 0);
      assert forall k :: natural <= k && FenceAt(t, k) ==> FenceAt(content, k);
      assert t[natural] != '`';
      NoFences(t, q, |t|);
    }
  }

  lemma BeforeBlockIsFenceFree(content: string, natural: nat, cut: nat)
    requires natural <= |content| && cut <= FirstFence(content[..natural], 0)
    ensures Fences(content[..cut], 0) == 0
  {
    var s, t := content[..cut], content[..natural];
    assert forall k :: 0 <= k && FenceAt(s, k) ==> FenceAt(t, k);
    NoFences(s, 0, cut);
  }

  /** A chunk that is followed by more content has its fences paired, with exactly two exceptions. */
  lemma CutIsBalancedUnless(content: string, limit: nat)
    requires 0 < limit < |content| && Cut(content, limit) < |content|
    ensures Balanced(content[..Cut(content, limit)])
            <==> !BlockTooLong(content, limit) && !FenceAcrossCut(content, limit)
  {
    var natural := NaturalEnd(content, limit);
    var open := UnclosedBlock(content[..natural]);
    if open >= 0 {
      if ClosesInBuffer(content, limit) {
        ExtensionParity(content, natural);
      } else {
        OddTextHasFence(content[..natural]);
        if BlockTooLong(content, limit) {
          FallbackKeepsBlockOpen(content, limit);
        } else {
          BeforeBlockIsFenceFree(content, natural, NaturalEnd(content, open));
        }
      }
    }
  }

  /** Any text behind an opening fence that has no backtick and runs past the buffer makes the block too long. */
  lemma BlockTooLongHappens(tail: string, limit: nat)
    requires limit >= 3 && |tail| > limit + BLOCK_BUFFER && '`' !in tail
    ensures var content := "```" + tail;
            BlockTooLong(content, limit) && !Balanced(content[..Cut(content, limit)])
  {
    var content := "```" + tail;
    assert forall i :: 3 <= i < |content| ==> content[i] == tail[i - 3];
    var natural := NaturalEnd(content, limit);
    BreakIsBehindFence(content, limit);
    var s := content[..natural];
    assert FenceAt(s, 0) && forall i :: 0 < i ==> !FenceAt(s, i);
    NoFences(s, 3, |s|);
    assert FirstFence(content, natural) == |content|;
    CutIsBalancedUnless(content, limit);
  }

  lemma BreakIsBehindFence(content: string, limit: nat)
    requires 3 <= limit < |content| && FenceAt(content, 0)
    ensures NaturalEnd(content, limit) >= 3
  {
    var natural := NaturalEnd(content, limit);
    assert natural < limit ==> IsSpace(content[natural]);
  }

  /** A block that closes right at the limit, with a second block opened within the buffer. */
  lemma FenceAcrossCutHappens(tail: string)
    requires |tail| > 10 + BLOCK_BUFFER
    ensures var content := "```aaaaa```bbb```" + tail;
            FenceAcrossCut(content, 10) && !Balanced(content[..Cut(content, 10)])
  {
    var content := "```aaaaa```bbb```" + tail;
    var s := content[..10];
    assert s == "```aaaaa``";
    assert NaturalEnd(content, 10) == 10;
    assert FenceAt(s, 0) && forall i :: 0 < i ==> !FenceAt(s, i);
    NoFences(s, 3, |s|);
    assert ScanEnd(s, 3) == 8 by {
      assert ScanEnd(s, 5) == ScanEnd(s, 6) == ScanEnd(s, 7) == ScanEnd(s, 8);
    }
    assert FenceAt(content, 8) && FenceAt(content, 14);
    assert forall i :: 10 <= i < 14 ==> !FenceAt(content, i);
    assert FirstFence(content, 10) == 14;
    CutIsBalancedUnless(content, 10);
  }

  lemma OddTextHasFence(s: string)
    requires !Balanced(s)
    ensures FirstFence(s, 0) < |s|
  {
    NoFences(s, 0, FirstFence(s, 0));
  }

  /** Every cut that leaves more content behind avoids both exceptions. */
  predicate Tame(content: string, limit: nat)
    requires limit > 0
    decreases |content|
  {
    |content| <= limit ||
    var rest := Trim(content[Cut(content, limit)..]);
    rest == [] ||
    (!BlockTooLong(content, limit) && !FenceAcrossCut(content, limit) && Tame(rest, limit))
  }

  predicate AllButLastBalanced(chunks: seq<string>) {
    forall i :: 0 <= i < |chunks| - 1 ==> Balanced(chunks[i])
  }

  lemma AllButLastOfCons(chunk: string, later: seq<string>)
    ensures AllButLastBalanced([chunk] + later) <==> later == [] || (Balanced(chunk) && AllButLastBalanced(later))
  {
    var chunks := [chunk] + later;
    assert chunks[0] == chunk;
    assert forall i :: 0 <= i < |later| ==> later[i] == chunks[i + 1];
    assert forall i :: 0 < i < |chunks| ==> chunks[i] == later[i - 1];
  }

  /** All chunks but the last have their fences paired if and only if the content is tame. */
  lemma {:induction false} ChunksAreBalancedIffTame(content: string, limit: nat)
    requires limit > 0
    ensures AllButLastBalanced(Split(content, limit)) <==> Tame(content, limit)
    decreases |content|
  {
    if |content| > limit {
      var cut := Cut(content, limit);
      var rest := Trim(content[cut..]);
      AllButLastOfCons(content[..cut], Split(rest, limit));
      if rest != [] {
        CutIsBalancedUnless(content, limit);
        ChunksAreBalancedIffTame(rest, limit);
      }
    }
  }

  // ---------- Where a chunk ends, said by positions ----------

  /** Among the `window` characters before `end`, the text's first one aside, one is of these. */
  predicate HasOne(content: string, end: nat, window: nat, chars: string)
    requires end <= |content|
  {
    exists i :: 0 < i < end && end <= i + window && content[i] in chars
  }

  predicate IsLastOne(content: string, end: nat, window: nat, chars: string, i: nat)
    requires end <= |content|
  {
    0 < i < end && end <= i + window && content[i] in chars && forall k :: i < k < end ==> content[k] !in chars
  }

  lemma LastBreakIs(content: string, end: nat, window: nat, b: Break, chars: string)
    requires end <= |content| && forall c :: c in chars <==> IsBreak(c, b)
    ensures var i := LastBreak(content[..end], window, b);
            if HasOne(content, end, window, chars) then i > 0 && IsLastOne(content, end, window, chars, i) else i <= 0
  {
    var s := content[..end];
    assert forall k :: 0 <= k < end ==> s[k] == content[k];
  }

  /**
    * The natural end is the last newline of the last 200 characters, or else the last blank or tab of the last 100;
    * where there is neither, nothing but the end will do.
    */
  lemma NaturalEndIs(content: string, end: nat)
    requires end <= |content|
    ensures var cut := NaturalEnd(content, end);
            if HasOne(content, end, 200, "\n") then IsLastOne(content, end, 200, "\n", cut)
            else if HasOne(content, end, 100, " \t") then IsLastOne(content, end, 100, " \t", cut)
            else cut == end
  {
    LastBreakIs(content, end, 200, Newline, "\n");
    LastBreakIs(content, end, 100, Blank, " \t");
  }

  predicate FenceIn(content: string, p: int) {
    0 <= p <= |content| - 3 && content[p..p + 3] == "```"
  }

  /** Fences from `i` on, met in a scan that steps over each: no other lies between them, nor before or behind. */
  ghost predicate AreFences(at: seq<nat>, s: string, i: nat) {
    && (forall a :: 0 <= a < |at| ==> i <= at[a] && FenceIn(s, at[a]))
    && Apart(at)
    && (forall p :: i <= p && FenceIn(s, p) ==> Meets(at, p))
  }

  predicate Apart(at: seq<nat>) {
    forall a, b :: 0 <= a < b < |at| ==> at[a] + 3 <= at[b]
  }

  /** The position is one of the three of a fence. */
  predicate Meets(at: seq<nat>, p: int) {
    exists a :: 0 <= a < |at| && at[a] <= p < at[a] + 3
  }

  lemma FenceAtIs(s: string, i: nat)
    ensures FenceAt(s, i) <==> FenceIn(s, i)
  {
    if i + 2 < |s| {
      assert s[i..i + 3] == [s[i], s[i + 1], s[i + 2]];
    }
  }

  lemma MetByMore(first: nat, later: seq<nat>, p: int)
    ensures first <= p < first + 3 || Meets(later, p) ==> Meets([first] + later, p)
  {
    var at := [first] + later;
    assert at[0] == first && forall a :: 0 <= a < |later| ==> at[a + 1] == later[a];
  }

  lemma FenceThenOthers(s: string, i: nat, later: seq<nat>)
    requires FenceIn(s, i) && AreFences(later, s, i + 3)
    ensures AreFences([i] + later, s, i)
  {
    forall p | i <= p && FenceIn(s, p) ensures Meets([i] + later, p) {
      MetByMore(i, later, p);
    }
    PrependApart(i, later);
  }

  lemma PrependApart(first: nat, later: seq<nat>)
    requires (forall a :: 0 <= a < |later| ==> first + 3 <= later[a]) && Apart(later)
    ensures Apart([first] + later)
  {
  }

  /** The number of fences is that of the ones met so. */
  lemma {:induction false} FencesAreCounted(s: string, i: nat) returns (at: seq<nat>)
    ensures AreFences(at, s, i) && |at| == Fences(s, i)
    decreases |s| - i
  {
    FenceAtIs(s, i);
    if i >= |s| {
      at := [];
    } else if FenceAt(s, i) {
      at := FencesAreCounted(s, i + 3);
      FenceThenOthers(s, i, at);
      at := [i] + at;
    } else {
      at := FencesAreCounted(s, i + 1);
    }
  }

  /** The first fence from `i` on begins at `p`. */
  predicate IsFirstFence(content: string, i: nat, p: int) {
    i <= p && FenceIn(content, p) && forall k :: i <= k < p ==> !FenceIn(content, k)
  }

  lemma FirstFenceIs(content: string, i: nat)
    requires i <= |content|
    ensures var p := FirstFence(content, i);
            if p < |content| then IsFirstFence(content, i, p) else forall k :: i <= k ==> !FenceIn(content, k)
  {
    forall k | i <= k ensures FenceIn(content, k) <==> FenceAt(content, k) {
      FenceAtIs(content, k);
    }
  }

  /** Which end a chunk is given. */
  ghost predicate EndsAt(content: string, limit: nat, natural: nat, cut: nat)
    requires natural <= |content|
  {
    && (Balanced(content[..natural]) ==> cut == natural)
    && (!Balanced(content[..natural]) && |content| <= limit + 500 ==> cut == |content|)
    && (!Balanced(content[..natural]) && |content| > limit + 500 ==>
          if exists p :: p + 3 <= limit + 500 && IsFirstFence(content, natural, p)
          then IsFirstFence(content, natural, cut - 3) && cut <= limit + 500
          else exists open :: IsFirstFence(content[..natural], 0, open) && natural >= open
                              && cut == if open == 0 then limit else NaturalEnd(content, open))
  }

  /**
    * A chunk ends at the natural end, if the fences before it are paired; else with the text, if that is at most 500
    * over the limit; else behind the next fence, if that is; else before the text's first fence, or, where the text
    * begins with that, at the limit.
    */
  lemma CutIs(content: string, limit: nat)
    requires 0 < limit < |content|
    ensures EndsAt(content, limit, NaturalEnd(content, limit), Cut(content, limit))
  {
    var natural := NaturalEnd(content, limit);
    if !Balanced(content[..natural]) {
      OddTextHasFence(content[..natural]);
      FirstFenceIs(content[..natural], 0);
      FirstFenceIs(content, natural);
    }
  }

  /** A text within the limit is one chunk, and an empty one is none. */
  lemma ShortTextIsWhole(content: string, limit: nat)
    requires |content| <= limit && limit > 0
    ensures Split(content, limit) == if content == "" then [] else [content]
  {
  }
}
