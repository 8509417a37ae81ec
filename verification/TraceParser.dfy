/** Sorting trace lines into events and counted rejects. */
module TraceParser {
  import opened Prelude
  import opened Text
  import opened AgentStatus

  /** What JSON decoding and schema validation make of a line; both are left arbitrary. */
  datatype Decoded = Malformed | WrongVersion | Invalid | Valid(event: TraceEvent)

  type Decoder = string -> Decoded

  datatype ParserStats = ParserStats(
    totalLines: nat, parsedEvents: nat, malformedLines: nat, invalidEvents: nat, unknownSchemaVersion: nat)

  const NO_STATS := ParserStats(0, 0, 0, 0, 0)

  datatype ParseResult = ParseResult(events: seq<TraceEvent>, stats: ParserStats)

  function MergeStats(a: ParserStats, b: ParserStats): ParserStats {
    ParserStats(a.totalLines + b.totalLines, a.parsedEvents + b.parsedEvents, a.malformedLines + b.malformedLines,
                a.invalidEvents + b.invalidEvents, a.unknownSchemaVersion + b.unknownSchemaVersion)
  }

  /** A line is trimmed; a blank one is skipped without being counted. */
  function DecodeLine(decode: Decoder, rawLine: string): seq<Decoded> {
    var line := Trim(rawLine);
    if line == [] then [] else [decode(line)]
  }

  function DecodeAll(decode: Decoder, lines: seq<string>): seq<Decoded> {
    if lines == [] then []
    else DecodeAll(decode, lines[..|lines| - 1]) + DecodeLine(decode, lines[|lines| - 1])
  }

  function Events(decoded: seq<Decoded>): seq<TraceEvent> {
    if decoded == [] then []
    else
      var last := decoded[|decoded| - 1];
      Events(decoded[..|decoded| - 1]) + if last.Valid? then [last.event] else []
  }

  function Count(decoded: seq<Decoded>, d: Decoded): nat {
    if decoded == [] then 0
    else Count(decoded[..|decoded| - 1], d) + if decoded[|decoded| - 1] == d then 1 else 0
  }

  function Stats(decoded: seq<Decoded>): ParserStats {
    ParserStats(|decoded|, |Events(decoded)|, Count(decoded, Malformed), Count(decoded, Invalid),
                Count(decoded, WrongVersion))
  }

  function EventsOf(decode: Decoder, lines: seq<string>): seq<TraceEvent> {
    Events(DecodeAll(decode, lines))
  }

  function StatsOf(decode: Decoder, lines: seq<string>): ParserStats {
    Stats(DecodeAll(decode, lines))
  }

  method ParseTraceLines(decode: Decoder, lines: seq<string>) returns (result: ParseResult)
    ensures result == ParseResult(EventsOf(decode, lines), StatsOf(decode, lines))
  {
    var events: seq<TraceEvent> := [];
    var malformedLines, invalidEvents, unknownSchemaVersion, totalLines := 0, 0, 0, 0;
    var i := 0;
    while i < |lines|
      invariant 0 <= i <= |lines|
      invariant Tallied(DecodeAll(decode, lines[..i]), events,
                        malformedLines, invalidEvents, unknownSchemaVersion, totalLines)
    {
      DecodeOneMore(decode, lines, i);
      var line := Trim(lines[i]);
      if line != [] {
        TallyOneMore(DecodeAll(decode, lines[..i]), decode(line), events,
                     malformedLines, invalidEvents, unknownSchemaVersion, totalLines);
        totalLines := totalLines + 1;
        match decode(line)
        case Malformed => malformedLines := malformedLines + 1;
        case WrongVersion => unknownSchemaVersion := unknownSchemaVersion + 1;
        case Invalid => invalidEvents := invalidEvents + 1;
        case Valid(event) => events := events + [event];
      }
      i := i + 1;
    }
    assert lines[..|lines|] == lines;
    return ParseResult(events, ParserStats(totalLines, |events|, malformedLines, invalidEvents, unknownSchemaVersion));
  }

  /** The running counters agree with the lines decoded so far. */
  predicate Tallied(decoded: seq<Decoded>, events: seq<TraceEvent>, malformed: nat, invalid: nat, version: nat, total: nat)
  {
    events == Events(decoded) && Stats(decoded) == ParserStats(total, |events|, malformed, invalid, version)
  }

  lemma TallyOneMore(decoded: seq<Decoded>, d: Decoded, events: seq<TraceEvent>,
                     malformed: nat, invalid: nat, version: nat, total: nat)
    requires Tallied(decoded, events, malformed, invalid, version, total)
    ensures Tallied(decoded + [d], events + (if d.Valid? then [d.event] else []),
                    malformed + (if d == Malformed then 1 else 0), invalid + (if d == Invalid then 1 else 0),
                    version + (if d == WrongVersion then 1 else 0), total + 1)
  {
    CountOneMore(decoded, d);
  }

  lemma DecodeOneMore(decode: Decoder, lines: seq<string>, i: nat)
    requires i < |lines|
    ensures DecodeAll(decode, lines[..i + 1])
            == if Trim(lines[i]) == [] then DecodeAll(decode, lines[..i])
               else DecodeAll(decode, lines[..i]) + [decode(Trim(lines[i]))]
  {
    assert lines[..i + 1][..i] == lines[..i];
    assert DecodeAll(decode, lines[..i + 1]) == DecodeAll(decode, lines[..i]) + DecodeLine(decode, lines[i]);
  }

  lemma CountOneMore(front: seq<Decoded>, last: Decoded)
    ensures Events(front + [last]) == Events(front) + if last.Valid? then [last.event] else []
    ensures Count(front + [last], Malformed) == Count(front, Malformed) + if last == Malformed then 1 else 0
    ensures Count(front + [last], Invalid) == Count(front, Invalid) + if last == Invalid then 1 else 0
    ensures Count(front + [last], WrongVersion) == Count(front, WrongVersion) + if last == WrongVersion then 1 else 0
  {
    assert (front + [last])[..|front + [last]| - 1] == front;
  }

  // ---------- Conservation and batching ----------

  /** Every non-blank line is counted exactly once more, as an event or as one kind of reject. */
  lemma {:induction false} StatsBalance(decoded: seq<Decoded>)
    ensures var s := Stats(decoded);
            s.totalLines == s.parsedEvents + s.malformedLines + s.invalidEvents + s.unknownSchemaVersion
  {
    if decoded != [] {
      var front, last := Pop(decoded);
      StatsBalance(front);
      CountOneMore(front, last);
    }
  }

  lemma {:induction false} DecodeAppend(decode: Decoder, a: seq<string>, b: seq<string>)
    ensures DecodeAll(decode, a + b) == DecodeAll(decode, a) + DecodeAll(decode, b)
  {
    if b == [] {
      assert a + b == a;
    } else {
      var front, last := PopAppend(a, b);
      DecodeAppend(decode, a, front);
    }
  }

  lemma {:induction false} CountAppend(a: seq<Decoded>, b: seq<Decoded>)
    ensures Events(a + b) == Events(a) + Events(b)
    ensures Stats(a + b) == MergeStats(Stats(a), Stats(b))
  {
    if b == [] {
      assert a + b == a;
    } else {
      var front, last := PopAppend(a, b);
      CountAppend(a, front);
      CountOneMore(front, last);
      CountOneMore(a + front, last);
      assert a + b == a + front + [last];
    }
  }

  /** Parsing two batches one after the other is parsing their concatenation. */
  lemma ParseAppend(decode: Decoder, a: seq<string>, b: seq<string>)
    ensures EventsOf(decode, a + b) == EventsOf(decode, a) + EventsOf(decode, b)
    ensures StatsOf(decode, a + b) == MergeStats(StatsOf(decode, a), StatsOf(decode, b))
  {
    DecodeAppend(decode, a, b);
    CountAppend(DecodeAll(decode, a), DecodeAll(decode, b));
  }

  // ---------- Events and counts by line ----------

  /** What becomes of each line; nothing of a blank one. */
  function Readings(decode: Decoder, lines: seq<string>): seq<Option<Decoded>> {
    seq(|lines|, i requires 0 <= i < |lines| => Reading(decode, Trim(lines[i])))
  }

  function Reading(decode: Decoder, trimmed: string): Option<Decoded> {
    if trimmed == "" then None else Some(decode(trimmed))
  }

  function Somes(readings: seq<Option<Decoded>>): seq<Decoded> {
    if readings == [] then []
    else
      var last := readings[|readings| - 1];
      Somes(readings[..|readings| - 1]) + if last.Some? then [last.value] else []
  }

  lemma SomesPush(front: seq<Option<Decoded>>, last: Option<Decoded>)
    ensures Somes(front + [last]) == if last.Some? then Somes(front) + [last.value] else Somes(front)
  {
    assert (front + [last])[..|front|] == front;
    EmptyIsUnit(Somes(front));
  }

  lemma {:induction false} DecodedAreSomes(decode: Decoder, lines: seq<string>)
    ensures DecodeAll(decode, lines) == Somes(Readings(decode, lines))
  {
    if lines != [] {
      var front, last := Pop(lines);
      DecodedAreSomes(decode, front);
      assert Readings(decode, lines)[..|front|] == Readings(decode, front);
    }
  }

  /** The lines that are read as this. */
  function LinesOf(readings: seq<Option<Decoded>>, d: Decoded): set<nat> {
    set i: nat | i < |readings| && readings[i] == Some(d)
  }

  lemma LinesOfPush(front: seq<Option<Decoded>>, last: Option<Decoded>, d: Decoded)
    ensures |LinesOf(front + [last], d)| == |LinesOf(front, d)| + if last == Some(d) then 1 else 0
  {
    var readings, before := front + [last], LinesOf(front, d);
    assert forall i :: 0 <= i < |front| ==> readings[i] == front[i];
    assert readings[|front|] == last;
    assert LinesOf(readings, d) == if last == Some(d) then before + {|front|} else before;
  }

  lemma {:induction false} CountIsLines(readings: seq<Option<Decoded>>, d: Decoded)
    ensures Count(Somes(readings), d) == |LinesOf(readings, d)|
  {
    if readings != [] {
      var front, last := Pop(readings);
      CountIsLines(front, d);
      LinesOfPush(front, last, d);
      SomesPush(front, last);
      if last.Some? {
        assert (Somes(front) + [last.value])[..|Somes(front)|] == Somes(front);
      }
    }
  }

  /** Each counter of rejects counts the lines of its kind, among those that are not blank. */
  lemma StatsCountLines(decode: Decoder, lines: seq<string>)
    ensures var s, readings := StatsOf(decode, lines), Readings(decode, lines);
            && s.malformedLines == |LinesOf(readings, Malformed)|
            && s.invalidEvents == |LinesOf(readings, Invalid)|
            && s.unknownSchemaVersion == |LinesOf(readings, WrongVersion)|
            && s.parsedEvents == |EventsOf(decode, lines)|
  {
    DecodedAreSomes(decode, lines);
    CountIsLines(Readings(decode, lines), Malformed);
    CountIsLines(Readings(decode, lines), Invalid);
    CountIsLines(Readings(decode, lines), WrongVersion);
  }

  /** The events stand at these lines, in this order, and at no others. */
  ghost predicate Stand(readings: seq<Option<Decoded>>, at: seq<nat>, events: seq<TraceEvent>) {
    && |at| == |events|
    && (forall a :: 0 <= a < |at| ==> at[a] < |readings| && readings[at[a]] == Some(Valid(events[a])))
    && (forall a, b :: 0 <= a < b < |at| ==> at[a] < at[b])
    && (forall i :: 0 <= i < |readings| && readings[i].Some? && readings[i].value.Valid? ==> i in at)
  }

  lemma StandPush(front: seq<Option<Decoded>>, event: TraceEvent, at: seq<nat>, events: seq<TraceEvent>)
    requires Stand(front, at, events)
    ensures Stand(front + [Some(Valid(event))], at + [|front|], events + [event])
  {
    var at' := at + [|front|];
    assert forall i :: i in at' <==> i in at || i == |front|;
  }

  lemma StandSkip(front: seq<Option<Decoded>>, last: Option<Decoded>, at: seq<nat>, events: seq<TraceEvent>)
    requires Stand(front, at, events) && (last.Some? ==> !last.value.Valid?)
    ensures Stand(front + [last], at, events)
  {
  }

  lemma {:induction false} EventsStand(readings: seq<Option<Decoded>>) returns (at: seq<nat>)
    ensures Stand(readings, at, Events(Somes(readings)))
  {
    if readings == [] {
      at := [];
    } else {
      var front, last := Pop(readings);
      at := EventsStand(front);
      SomesPush(front, last);
      if last.Some? {
        CountOneMore(Somes(front), last.value);
      }
      EmptyIsUnit(Events(Somes(front)));
      if last.Some? && last.value.Valid? {
        StandPush(front, last.value.event, at, Events(Somes(front)));
        at := at + [|front|];
      } else {
        StandSkip(front, last, at, Events(Somes(front)));
      }
    }
  }

  /** The events of a batch are those of its valid lines, each once and in their order. */
  lemma EventsInOrder(decode: Decoder, lines: seq<string>) returns (at: seq<nat>)
    ensures Stand(Readings(decode, lines), at, EventsOf(decode, lines))
  {
    DecodedAreSomes(decode, lines);
    at := EventsStand(Readings(decode, lines));
  }
}
