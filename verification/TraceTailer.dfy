/** Incremental reading of append-only trace files: an offset and an unfinished line for each file. */
module TraceTailer {
  import opened Prelude
  import opened Text

  // ---------- Whole-file reference ----------

  /** A text split at newlines: the segments that a newline ends, and the text after the last newline. */
  datatype Parts = Parts(finished: seq<string>, unfinished: string)

  function Segments(text: string): Parts {
    if text == [] then Parts([], []) else Prepend(text[0], Segments(text[1..]))
  }

  function Prepend(c: char, parts: Parts): Parts {
    if c == '\n' then Parts([[]] + parts.finished, parts.unfinished)
    else if parts.finished == [] then Parts([], [c] + parts.unfinished)
    else Parts([[c] + parts.finished[0]] + parts.finished[1..], parts.unfinished)
  }

  function Unfinished(text: string): string {
    Segments(text).unfinished
  }

  function KeepLine(part: string): seq<string> {
    var line := Trim(part);
    if line != [] then [line] else []
  }

  /** Trimmed segments, blank ones dropped. */
  function Kept(parts: seq<string>): seq<string> {
    if parts == [] then [] else Kept(parts[..|parts| - 1]) + KeepLine(parts[|parts| - 1])
  }

  /** What one read of the whole text should deliver: its trimmed, non-blank, finished lines. */
  function Lines(text: string): seq<string> {
    Kept(Segments(text).finished)
  }

  // ---------- One incremental read ----------

  datatype Tail = Tail(offset: nat, remainder: string)

  const UNREAD := Tail(0, [])

  datatype TailRead = TailRead(tail: Tail, lines: seq<string>, rotated: bool)

  function ReadTail(tail: Tail, data: string): TailRead {
    var rotated := |data| < tail.offset;
    var from := if rotated then UNREAD else tail;
    var merged := from.remainder + data[from.offset..];
    TailRead(Tail(|data|, Unfinished(merged)), Lines(merged), rotated)
  }

  datatype TailReadResult = TailReadResult(lines: seq<string>, offset: nat, rotated: bool)

  class TraceTailer {
    var offsets: map<string, nat>
    var remainders: map<string, string>

    ghost function TailOf(file: string): Tail
      reads this
    {
      Tail(if file in offsets then offsets[file] else 0, if file in remainders then remainders[file] else [])
    }

    constructor ()
      ensures forall file :: TailOf(file) == UNREAD
    {
      offsets := map[];
      remainders := map[];
    }

    /** `data` is what the file holds at the moment of the call. */
    method ReadAppendedLines(filePath: string, data: string) returns (result: TailReadResult)
      modifies this
      ensures var read := ReadTail(old(TailOf(filePath)), data);
              && result == TailReadResult(read.lines, |data|, read.rotated)
              && TailOf(filePath) == read.tail
      ensures forall file :: file != filePath ==> TailOf(file) == old(TailOf(file))
    {
      var previousOffset := if filePath in offsets then offsets[filePath] else 0;
      var wasRotated := |data| < previousOffset;
      var startOffset := if wasRotated then 0 else previousOffset;
      var previousRemainder :=
        if wasRotated then [] else if filePath in remainders then remainders[filePath] else [];
      var mergedText := previousRemainder + data[startOffset..];

      var lines, trailingRemainder := FinishedLines(mergedText);
      remainders := remainders[filePath := trailingRemainder];
      offsets := offsets[filePath := |data|];
      return TailReadResult(lines, |data|, wasRotated);
    }

    method Reset(filePath: string)
      modifies this
      ensures TailOf(filePath) == UNREAD
      ensures forall file :: file != filePath ==> TailOf(file) == old(TailOf(file))
    {
      offsets := offsets - {filePath};
      remainders := remainders - {filePath};
    }
  }

  /** Splitting at every newline, then setting the last segment aside unless the text ends with a newline. */
  method FinishedLines(mergedText: string) returns (lines: seq<string>, trailingRemainder: string)
    ensures lines == Lines(mergedText) && trailingRemainder == Unfinished(mergedText)
  {
    var parts := Segments(mergedText);
    var segments := parts.finished + [parts.unfinished];
    if mergedText != [] && mergedText[|mergedText| - 1] == '\n' {
      NothingUnfinished(mergedText);
      KeptAppend(parts.finished, [[]]);
      KeptBlank();
      trailingRemainder := [];
    } else {
      trailingRemainder := segments[|segments| - 1];
      segments := segments[..|segments| - 1];
      assert segments == parts.finished;
    }
    lines := TrimmedLines(segments);
  }

  lemma KeptBlank()
    ensures Kept([[]]) == []
  {
    var blank: seq<string> := [[]];
    assert Kept(blank) == Kept(blank[..0]) + KeepLine(blank[0]);
    assert KeepLine([]) == [];
  }

  method TrimmedLines(segments: seq<string>) returns (lines: seq<string>)
    ensures lines == Kept(segments)
  {
    lines := [];
    var i := 0;
    while i < |segments|
      invariant 0 <= i <= |segments|
      invariant lines == Kept(segments[..i])
    {
      assert segments[..i + 1][..i] == segments[..i];
      var line := Trim(segments[i]);
      if |line| > 0 {
        lines := lines + [line];
      }
      i := i + 1;
    }
    assert segments[..|segments|] == segments;
  }

  // ---------- Reading in pieces is reading at once ----------

  lemma {:induction false} NothingUnfinished(text: string)
    requires text != [] && text[|text| - 1] == '\n'
    ensures Segments(text).unfinished == [] && Segments(text).finished != []
  {
    if |text| == 1 {
      assert text[1..] == [];
    } else {
      NothingUnfinished(text[1..]);
    }
  }

  function Join(first: Parts, second: Parts): Parts {
    Parts(first.finished + second.finished, second.unfinished)
  }

  lemma PrependJoin(c: char, first: Parts, second: Parts)
    requires c == '\n' || first.finished != []
    ensures Prepend(c, Join(first, second)) == Join(Prepend(c, first), second)
  {
    if c == '\n' {
      assert [[]] + (first.finished + second.finished) == [[]] + first.finished + second.finished;
    } else {
      assert (first.finished + second.finished)[1..] == first.finished[1..] + second.finished;
    }
  }

  lemma {:induction false} SegmentsAppend(a: string, b: string)
    ensures Segments(a + b) == Join(Segments(a), Segments(Unfinished(a) + b))
  {
    if a == [] {
      assert a + b == b && Unfinished(a) + b == b;
    } else {
      var c, rest := a[0], a[1..];
      assert (a + b)[0] == c && (a + b)[1..] == rest + b;
      SegmentsAppend(rest, b);
      var first, carried := Segments(rest), Unfinished(rest) + b;
      if c == '\n' || first.finished != [] {
        PrependJoin(c, first, Segments(carried));
      } else {
        assert Unfinished(a) + b == [c] + carried;
        assert ([c] + carried)[1..] == carried;
        assert Join(first, Segments(carried)) == Segments(carried);
      }
    }
  }

  lemma {:induction false} KeptAppend(a: seq<string>, b: seq<string>)
    ensures Kept(a + b) == Kept(a) + Kept(b)
  {
    if b == [] {
      assert a + b == a;
    } else {
      assert (a + b)[..|a + b| - 1] == a + b[..|b| - 1];
      KeptAppend(a, b[..|b| - 1]);
    }
  }

  /** The lines of a text are those of its front, then those of its unfinished line with the back. */
  lemma LinesAppend(a: string, b: string)
    ensures Lines(a + b) == Lines(a) + Lines(Unfinished(a) + b)
    ensures Unfinished(a + b) == Unfinished(Unfinished(a) + b)
  {
    SegmentsAppend(a, b);
    KeptAppend(Segments(a).finished, Segments(Unfinished(a) + b).finished);
  }

  /** What a correct reader holds after reading `data`: its length and its unfinished line. */
  function Caught(data: string): Tail {
    Tail(|data|, Unfinished(data))
  }

  /** One read of a file that grew since the last one. */
  lemma GrowingRead(seen: string, data: string)
    requires seen <= data
    ensures ReadTail(Caught(seen), data).tail == Caught(data)
    ensures Lines(seen) + ReadTail(Caught(seen), data).lines == Lines(data)
    ensures !ReadTail(Caught(seen), data).rotated
  {
    LinesAppend(seen, data[|seen|..]);
    assert data == seen + data[|seen|..];
  }

  /** A file found shorter than the offset is read again from its start. */
  lemma RotatedRead(tail: Tail, data: string)
    requires |data| < tail.offset
    ensures ReadTail(tail, data).tail == Caught(data)
    ensures ReadTail(tail, data).lines == Lines(data)
    ensures ReadTail(tail, data).rotated
  {
    assert [] + data[0..] == data;
  }

  lemma {:induction false} WithoutNewline(text: string)
    requires '\n' !in text
    ensures Segments(text) == Parts([], text)
  {
    if text != [] {
      WithoutNewline(text[1..]);
      assert [text[0]] + text[1..] == text;
    }
  }

  lemma {:induction false} UnfinishedHasNoNewline(text: string)
    ensures '\n' !in Unfinished(text)
  {
    if text != [] {
      UnfinishedHasNoNewline(text[1..]);
    }
  }

  /** The first newline finishes one line; the rest is read on its own. */
  lemma {:induction false} FirstLine(head: string, rest: string)
    requires '\n' !in head
    ensures Segments(head + "\n" + rest) == Parts([head] + Segments(rest).finished, Segments(rest).unfinished)
  {
    var text := head + "\n" + rest;
    if head == [] {
      assert text[0] == '\n' && text[1..] == rest;
    } else {
      FirstLine(head[1..], rest);
      assert text[0] == head[0] && text[1..] == head[1..] + "\n" + rest;
      assert [head[0]] + head[1..] == head;
      assert ([head[1..]] + Segments(rest).finished)[1..] == Segments(rest).finished;
    }
  }

  lemma LinesFromFirst(head: string, rest: string)
    requires '\n' !in head
    ensures Lines(head + "\n" + rest) == KeepLine(head) + Lines(rest)
  {
    FirstLine(head, rest);
    KeptAppend([head], Segments(rest).finished);
    assert [head][..0] == [];
    assert Kept([head]) == [] + KeepLine(head);
  }

  /**
    * What is delivered of a text: for each line that a newline ends, what is left of it without the whitespace
    * around, unless nothing is, and then the same of the rest; of a text without a newline, nothing.
    */
  lemma FirstLineDelivered(head: string, rest: string) returns (before: string, line: string, after: string)
    requires '\n' !in head
    ensures head == before + (line + after) && AllSpace(before) && AllSpace(after) && BareEnds(line)
    ensures Lines(head + "\n" + rest) == (if line == "" then [] else [line]) + Lines(rest)
    ensures Lines(head) == []
  {
    before, after := TrimParts(head);
    line := Trim(head);
    LinesFromFirst(head, rest);
    WithoutNewline(head);
  }

  lemma CancelTail<T>(a: seq<T>, b: seq<T>, tail: seq<T>)
    ensures a + tail == b + tail <==> a == b
  {
    if a + tail == b + tail {
      assert (a + tail)[..|a|] == a && (b + tail)[..|b|] == b;
    }
  }

  /**
    * A file replaced by a text at least as long is read on from the old offset, `head` up to the next newline
    * being taken for the end of the old unfinished line. Its lines are delivered exactly when that joined line
    * is all that the new text finishes up to there; otherwise lines are lost, torn or made up.
    */
  lemma ReplacementDeliveredIff(seen: string, replaced: string, head: string, rest: string)
    requires |seen| <= |replaced| && replaced[|seen|..] == head + "\n" + rest && '\n' !in head
    ensures var before := replaced[..|seen|];
            ReadTail(Caught(seen), replaced).lines == Lines(replaced)
            <==> KeepLine(Unfinished(seen) + head) == Lines(before) + KeepLine(Unfinished(before) + head)
  {
    var before := replaced[..|seen|];
    assert replaced == before + (head + "\n" + rest);
    LinesAppend(before, head + "\n" + rest);
    UnfinishedHasNoNewline(seen);
    UnfinishedHasNoNewline(before);
    assert Unfinished(seen) + (head + "\n" + rest) == Unfinished(seen) + head + "\n" + rest;
    assert Unfinished(before) + (head + "\n" + rest) == Unfinished(before) + head + "\n" + rest;
    LinesFromFirst(Unfinished(seen) + head, rest);
    LinesFromFirst(Unfinished(before) + head, rest);
    Regroup(Lines(before), KeepLine(Unfinished(before) + head), Lines(rest));
    CancelTail(KeepLine(Unfinished(seen) + head), Lines(before) + KeepLine(Unfinished(before) + head), Lines(rest));
  }

  /** Without a newline behind the offset the read delivers nothing, and what the new text finished is lost. */
  lemma ReplacementWithoutNewline(seen: string, replaced: string)
    requires |seen| <= |replaced| && '\n' !in replaced[|seen|..]
    ensures ReadTail(Caught(seen), replaced).lines == []
    ensures Lines(replaced) == Lines(replaced[..|seen|])
  {
    var before, after := replaced[..|seen|], replaced[|seen|..];
    assert replaced == before + after;
    LinesAppend(before, after);
    UnfinishedHasNoNewline(seen);
    UnfinishedHasNoNewline(before);
    WithoutNewline(Unfinished(seen) + after);
    WithoutNewline(Unfinished(before) + after);
  }

  /** A file with one line, replaced by one with another line of the same length: the new line is lost. */
  lemma ReplacedLineIsLost()
    ensures Lines("b\n") == ["b"]
    ensures ReadTail(Caught("a\n"), "b\n").lines == []
  {
    LoneLine("a");
    LoneLine("b");
    assert "a" + "\n" == "a\n" && "b" + "\n" == "b\n";
    assert [] + "b\n"[2..] == [];
  }

  lemma LoneLine(line: string)
    requires '\n' !in line && line != [] && !IsSpace(line[0]) && !IsSpace(line[|line| - 1])
    ensures Lines(line + "\n") == [line] && Unfinished(line + "\n") == []
  {
    assert line + "\n" == line + "\n" + [];
    FirstLine(line, []);
    LinesFromFirst(line, []);
    assert TrimLeft(line) == line && TrimRight(line) == line;
  }

  /** Replaced by a longer line instead, only the end of the new line is delivered: a line the file never held. */
  lemma ReplacedLineIsTorn()
    ensures Lines("bcd\n") == ["bcd"]
    ensures ReadTail(Caught("a\n"), "bcd\n").lines == ["d"]
  {
    LoneLine("a");
    LoneLine("bcd");
    LoneLine("d");
    assert "a" + "\n" == "a\n" && "bcd" + "\n" == "bcd\n" && "d" + "\n" == "d\n";
    assert [] + "bcd\n"[2..] == "d\n";
  }

  // ---------- Several files, read in any order ----------

  datatype Read = Read(file: string, data: string)

  datatype Delivery = Delivery(file: string, lines: seq<string>)

  function TailIn(tails: map<string, Tail>, file: string): Tail {
    if file in tails then tails[file] else UNREAD
  }

  /** Tails after a sequence of reads of any files. */
  function Tails(history: seq<Read>): map<string, Tail> {
    if history == [] then map[]
    else
      var tails, r := Tails(history[..|history| - 1]), history[|history| - 1];
      tails[r.file := ReadTail(TailIn(tails, r.file), r.data).tail]
  }

  /** The lines delivered for one file over the whole sequence. */
  function Delivered(history: seq<Read>, file: string): seq<string> {
    if history == [] then []
    else
      var before, r := history[..|history| - 1], history[|history| - 1];
      Delivered(before, file) + if r.file == file then ReadTail(TailIn(Tails(before), file), r.data).lines else []
  }

  /** The content of a file at its last read, empty before the first. */
  function LastSeen(history: seq<Read>, file: string): string {
    if history == [] then []
    else if history[|history| - 1].file == file then history[|history| - 1].data
    else LastSeen(history[..|history| - 1], file)
  }

  /** Each read of the file finds what the previous one found, possibly with more after it. */
  predicate OnlyGrows(history: seq<Read>, file: string) {
    history == [] ||
    var before, r := history[..|history| - 1], history[|history| - 1];
    OnlyGrows(before, file) && (r.file == file ==> LastSeen(before, file) <= r.data)
  }

  /** Each read of the file finds what the previous one found, possibly with more after it, or a shorter text. */
  predicate GrowsOrRestarts(history: seq<Read>, file: string) {
    history == [] ||
    var before, r := history[..|history| - 1], history[|history| - 1];
    && GrowsOrRestarts(before, file)
    && (r.file == file ==> LastSeen(before, file) <= r.data || |r.data| < |LastSeen(before, file)|)
  }

  /** The lines the file held when it was last seen before each restart, oldest first. */
  function Abandoned(history: seq<Read>, file: string): seq<string> {
    if history == [] then []
    else
      var before, r := history[..|history| - 1], history[|history| - 1];
      if r.file == file && |r.data| < |LastSeen(before, file)| then Abandoned(before, file) + Lines(LastSeen(before, file))
      else Abandoned(before, file)
  }

  /** All lines the file ever held, each life of it after the other. */
  function EverHeld(history: seq<Read>, file: string): seq<string> {
    Abandoned(history, file) + Lines(LastSeen(history, file))
  }

  lemma ReadOfCaught(abandoned: seq<string>, seen: string, data: string)
    requires seen <= data || |data| < |seen|
    ensures ReadTail(Caught(seen), data).tail == Caught(data)
    ensures abandoned + Lines(seen) + ReadTail(Caught(seen), data).lines
            == (if |data| < |seen| then abandoned + Lines(seen) else abandoned) + Lines(data)
  {
    if seen <= data {
      GrowingRead(seen, data);
      Regroup(abandoned, Lines(seen), ReadTail(Caught(seen), data).lines);
    } else {
      RotatedRead(Caught(seen), data);
    }
  }

  /**
    * However the reads of a file are timed and interleaved with reads of other files, and however often the
    * file starts over, the lines delivered for it are the finished lines it ever held, each exactly once and
    * in order, and the remainder is the text behind the last newline.
    */
  lemma {:induction false} TailingDeliversEverything(history: seq<Read>, file: string)
    requires GrowsOrRestarts(history, file)
    ensures Delivered(history, file) == EverHeld(history, file)
    ensures TailIn(Tails(history), file) == Caught(LastSeen(history, file))
  {
    if history == [] {
      EmptyIsUnit(Lines([]));
    } else {
      var before, r := history[..|history| - 1], history[|history| - 1];
      TailingDeliversEverything(before, file);
      if r.file == file {
        ReadOfCaught(Abandoned(before, file), LastSeen(before, file), r.data);
      } else {
        EmptyIsUnit(Delivered(before, file));
      }
    }
  }

  lemma {:induction false} GrowingAbandonsNothing(history: seq<Read>, file: string)
    requires OnlyGrows(history, file)
    ensures GrowsOrRestarts(history, file) && Abandoned(history, file) == []
  {
    if history != [] {
      GrowingAbandonsNothing(history[..|history| - 1], file);
    }
  }

  /** Reading a file in pieces while it grows is reading its final content at once. */
  lemma TailingIsReadingAtOnce(history: seq<Read>, file: string)
    requires OnlyGrows(history, file)
    ensures Delivered(history, file) == Lines(LastSeen(history, file))
    ensures TailIn(Tails(history), file) == Caught(LastSeen(history, file))
  {
    GrowingAbandonsNothing(history, file);
    TailingDeliversEverything(history, file);
    EmptyIsUnit(Lines(LastSeen(history, file)));
  }
}
