/** Bounds, pairing and compression of agent turns, over whole conversations. */
module AgentTheorems {
  import opened Prelude
  import opened Transcript
  import opened SessionManager
  import opened AgentLoop

  // ---------- Bounds ----------

  lemma {:induction false} AskIsBounded(env: Env, s: State, summary: string, retry: nat)
    requires retry <= MAX_RETRIES
    ensures s.sent < Ask(env, s, summary, retry).0.sent
    ensures |Ask(env, s, summary, retry).0.sent| <= |s.sent| + MAX_RETRIES + 1 - retry
    decreases MAX_RETRIES - retry
  {
    if env.chat(|s.sent|) == ContextError && retry < MAX_RETRIES {
      AskIsBounded(env, Squeezed(env, Sent(s), summary), summary, retry + 1);
    }
  }

  /** The iteration loop ends within its limit and makes at most three model calls an iteration. */
  lemma {:induction false} IterationsAreBounded(env: Env, s: State, summary: string, left: nat)
    ensures var r := Iterate(env, s, summary, left);
            && r.iterations <= left
            && s.sent <= r.state.sent
            && r.iterations <= |r.state.sent| - |s.sent| <= 3 * r.iterations
    decreases left
  {
    if left > 0 {
      AskIsBounded(env, s, summary, 0);
      var (s1, reply) := Ask(env, s, summary, 0);
      if AsksForTools(reply) {
        IterationsAreBounded(env, WithBlock(env, s1, reply.content, reply.calls), summary, left - 1);
      }
    }
  }

  // ---------- Pairing, one turn ----------

  predicate AllPaired(prompts: seq<seq<Message>>) {
    forall p <- prompts :: Paired(p)
  }

  lemma BlockIsPaired(env: Env, call: nat, content: string, calls: seq<ToolCall>)
    ensures Paired(Block(env, call, content, calls))
  {
    var block := Block(env, call, content, calls);
    assert block + [] == block;
    BlockThenRest(block, []);
  }

  lemma {:induction false} ToolBlocksArePaired(env: Env, n: nat)
    requires AllAskForTools(env, n)
    ensures Paired(ToolBlocks(env, n))
  {
    if n > 0 {
      ToolBlocksArePaired(env, n - 1);
      BlockIsPaired(env, n, env.chat(n - 1).content, env.chat(n - 1).calls);
      PairedAppend(ToolBlocks(env, n - 1), Block(env, n, env.chat(n - 1).content, env.chat(n - 1).calls));
    }
  }

  /** The transcript a subagent's loop builds is paired at every iteration. */
  lemma ToolLoopTranscriptIsPaired(env: Env, prompt: seq<Message>, n: nat)
    requires Paired(prompt) && AllAskForTools(env, n)
    ensures Paired(prompt + ToolBlocks(env, n))
  {
    ToolBlocksArePaired(env, n);
    PairedAppend(prompt, ToolBlocks(env, n));
  }

  /** Stripping leading tool results makes the prompt of a sound history fully paired. */
  lemma PromptIsPaired(history: seq<Message>, base: string, summary: string, current: string)
    requires Sound(history)
    ensures Paired(Build(history, base, summary, current))
  {
    var system, user := Plain(System, SystemText(base, summary)), Plain(User, current);
    PlainIsPaired(system);
    PlainIsPaired(user);
    PairedAppend([system], Strip(history));
    PairedAppend([system] + Strip(history), [user]);
  }

  lemma WithBlockKeepsPairing(env: Env, s: State, content: string, calls: seq<ToolCall>)
    requires Sound(s.history) && Paired(s.prompt)
    ensures Sound(WithBlock(env, s, content, calls).history) && Paired(WithBlock(env, s, content, calls).prompt)
  {
    var block := Block(env, |s.sent|, content, calls);
    BlockIsPaired(env, |s.sent|, content, calls);
    SoundAppend(s.history, block);
    PairedAppend(s.prompt, block);
  }

  // ---------- Pairing, whole conversations ----------

  /** What may happen to one session: a turn, a summarization, or a truncation to any length. */
  datatype Event =
    | Asked(opts: TurnOptions)
    | Summary(text: string)
    | Cut(keepLast: int)

  function Step(env: Env, session: Session, sent: seq<seq<Message>>, e: Event, max: nat)
    : (Session, seq<seq<Message>>)
  {
    match e
    case Asked(opts) => var (session', sent', _) := Turn(env, session, sent, opts, max); (session', sent')
    case Summary(text) => (Summarized(session, text), sent)
    case Cut(keepLast) => (session.(messages := Truncated(session.messages, keepLast)), sent)
  }

  function Converse(env: Env, session: Session, sent: seq<seq<Message>>, events: seq<Event>, max: nat)
    : (Session, seq<seq<Message>>)
    decreases |events|
  {
    if events == [] then (session, sent)
    else
      var (session', sent') := Step(env, session, sent, events[0], max);
      Converse(env, session', sent', events[1..], max)
  }

  lemma TruncatedIsSound(messages: seq<Message>, keepLast: int)
    requires Sound(messages)
    ensures Sound(Truncated(messages, keepLast))
  {
    if 0 < keepLast < |messages| {
      SoundTruncated(messages, |messages| - keepLast);
    }
  }

  lemma StepOnlySends(env: Env, session: Session, sent: seq<seq<Message>>, e: Event, max: nat)
    ensures sent <= Step(env, session, sent, e, max).1
  {
    if e.Asked? {
      IterationsAreBounded(env, TurnStart(env, session, sent, e.opts), session.summary, max);
    }
  }

  lemma {:induction false} ConverseOnlySends(
      env: Env, session: Session, sent: seq<seq<Message>>, events: seq<Event>, max: nat)
    ensures sent <= Converse(env, session, sent, events, max).1
    decreases |events|
  {
    if events != [] {
      var (session', sent') := Step(env, session, sent, events[0], max);
      StepOnlySends(env, session, sent, events[0], max);
      ConverseOnlySends(env, session', sent', events[1..], max);
    }
  }

  // ---------- Compression ----------

  /** Compression keeps the first message, the last and the second half of those between, in order. */
  lemma CompressionKeeps(history: seq<Message>)
    requires |history| > 4
    ensures var n := |history|;
            var c := Compressed(history);
            && |c| == (n + 1) / 2 + 2
            && c[0] == history[0] && c[|c| - 1] == history[n - 1]
            && IsPlain(c[1]) && IsSuffix(c[2..], history)
            && (n >= 6 ==> |c| < n)
  {
  }

  function CompressedTimes(history: seq<Message>, times: nat): seq<Message>
    decreases times
  {
    if times == 0 then history else CompressedTimes(Compressed(history), times - 1)
  }

  /** Compressing again and again settles at five messages, within as many rounds as there are messages. */
  lemma {:induction false} CompressionSettlesAtFive(history: seq<Message>, times: nat)
    requires |history| >= 5 && times >= |history| - 5
    ensures |CompressedTimes(history, times)| == 5
    decreases times
  {
    if times > 0 {
      CompressionKeeps(history);
      CompressionSettlesAtFive(Compressed(history), times - 1);
    }
  }

  /** A stored history that is sound but for at most two messages that compressions put in front. */
  ghost predicate Patched(history: seq<Message>) {
    exists k :: 0 <= k <= 2 && k <= |history| && SoundFrom(history, k)
  }

  predicate SoundFrom(history: seq<Message>, k: nat)
    requires k <= |history|
  {
    Sound(history[k..])
  }

  lemma SoundIsPatched(history: seq<Message>)
    requires Sound(history)
    ensures Patched(history)
  {
    assert history[0..] == history;
    assert SoundFrom(history, 0);
  }

  /** The half that a compression keeps of a patched history is sound. */
  lemma KeptHalfIsSound(history: seq<Message>)
    requires Patched(history) && |history| > 4
    ensures Sound(history[1 + DroppedCount(|history|)..])
  {
    var k :| 0 <= k <= 2 && k <= |history| && SoundFrom(history, k);
    var from := 1 + DroppedCount(|history|);
    SoundTruncated(history[k..], from - k);
    assert history[k..][from - k..] == history[from..];
  }

  lemma CompressedIsPatched(history: seq<Message>)
    requires Patched(history)
    ensures Patched(Compressed(history))
  {
    if |history| > 4 {
      KeptHalfIsSound(history);
      assert Compressed(history)[2..] == history[1 + DroppedCount(|history|)..];
      assert SoundFrom(Compressed(history), 2);
    }
  }

  lemma AppendedFrom(history: seq<Message>, blocks: seq<Message>, k: nat)
    requires k <= |history| && SoundFrom(history, k) && Paired(blocks)
    ensures SoundFrom(history + blocks, k)
  {
    var rest := history[k..];
    SoundAppend(rest, blocks);
    assert (history + blocks)[k..] == rest + blocks;
  }

  lemma AppendedIsPatched(history: seq<Message>, blocks: seq<Message>)
    requires Patched(history) && Paired(blocks)
    ensures Patched(history + blocks)
  {
    var k :| 0 <= k <= 2 && k <= |history| && SoundFrom(history, k);
    AppendedFrom(history, blocks, k);
  }

  lemma CutIsPatched(history: seq<Message>, from: nat, rest: seq<Message>)
    requires Patched(history) && from <= |history| && rest == history[from..]
    ensures Patched(rest)
  {
    var k :| 0 <= k <= 2 && k <= |history| && SoundFrom(history, k);
    if from <= k {
      assert rest[k - from..] == history[k..];
      assert SoundFrom(rest, k - from);
    } else {
      var sound := history[k..];
      SoundTruncated(sound, from - k);
      assert sound[from - k..] == rest;
      SoundIsPatched(rest);
    }
  }

  lemma TruncatedIsPatched(history: seq<Message>, keepLast: int)
    requires Patched(history)
    ensures Patched(Truncated(history, keepLast))
  {
    var from := if keepLast <= 0 then |history| else if keepLast < |history| then |history| - keepLast else 0;
    CutIsPatched(history, from, Truncated(history, keepLast));
  }

  lemma {:induction false} AskKeepsPatched(env: Env, s: State, summary: string, retry: nat)
    requires retry <= MAX_RETRIES && Patched(s.history)
    ensures Patched(Ask(env, s, summary, retry).0.history)
    decreases MAX_RETRIES - retry
  {
    if env.chat(|s.sent|) == ContextError && retry < MAX_RETRIES {
      CompressedIsPatched(s.history);
      AskKeepsPatched(env, Squeezed(env, Sent(s), summary), summary, retry + 1);
    }
  }

  lemma {:induction false} IterationKeepsPatched(env: Env, s: State, summary: string, left: nat)
    requires Patched(s.history)
    ensures Patched(Iterate(env, s, summary, left).state.history)
    decreases left
  {
    if left > 0 {
      AskKeepsPatched(env, s, summary, 0);
      var (s1, reply) := Ask(env, s, summary, 0);
      if AsksForTools(reply) {
        WithBlockKeepsPatched(env, s1, reply.content, reply.calls);
        IterationKeepsPatched(env, WithBlock(env, s1, reply.content, reply.calls), summary, left - 1);
      }
    }
  }

  lemma WithBlockKeepsPatched(env: Env, s: State, content: string, calls: seq<ToolCall>)
    requires Patched(s.history)
    ensures Patched(WithBlock(env, s, content, calls).history)
  {
    BlockIsPaired(env, |s.sent|, content, calls);
    AppendedIsPatched(s.history, Block(env, |s.sent|, content, calls));
  }

  lemma StepKeepsPatched(env: Env, session: Session, sent: seq<seq<Message>>, e: Event, max: nat)
    requires Patched(session.messages)
    ensures Patched(Step(env, session, sent, e, max).0.messages)
  {
    match e
    case Asked(opts) =>
      var user := Plain(User, opts.userMessage);
      var start := TurnStart(env, session, sent, opts);
      PlainIsPaired(user);
      AppendedIsPatched(session.messages, [user]);
      IterationKeepsPatched(env, start, session.summary, max);
      var r := Iterate(env, start, session.summary, max);
      if r.outcome.Done? {
        var final := Plain(Assistant, if r.outcome.content == "" then opts.defaultResponse else r.outcome.content);
        PlainIsPaired(final);
        AppendedIsPatched(r.state.history, [final]);
      }
    case Summary(_) => TruncatedIsPatched(session.messages, KEEP_AFTER_SUMMARY);
    case Cut(keepLast) => TruncatedIsPatched(session.messages, keepLast);
  }

  /**
    * With or without overflows: through any turns, retries, summarizations and truncations the stored history
    * is sound but for at most two messages in front of it.
    */
  lemma {:induction false} HistoryStaysPatched(
      env: Env, session: Session, sent: seq<seq<Message>>, events: seq<Event>, max: nat)
    requires Patched(session.messages)
    ensures Patched(Converse(env, session, sent, events, max).0.messages)
    decreases |events|
  {
    if events != [] {
      var (session', sent') := Step(env, session, sent, events[0], max);
      StepKeepsPatched(env, session, sent, events[0], max);
      HistoryStaysPatched(env, session', sent', events[1..], max);
    }
  }

  /**
    * The prompt rebuilt from a compressed history is paired exactly when the kept first message calls
    * no tools, or is itself a cut-off result, and the kept second half does not begin with a result. This
    * covers every compression in every conversation, the second of one retry loop included.
    */
  lemma CompressedPromptIsPairedIff(history: seq<Message>, base: string, summary: string)
    requires Patched(history) && |history| > 4
    ensures Paired(Build(Compressed(history), base, summary, ""))
            <==> (history[0].role == Tool || history[0].toolCalls == [])
                 && history[1 + DroppedCount(|history|)].role != Tool
  {
    var mid := DroppedCount(|history|);
    var note, half, user := CompressionNote(mid), history[1 + mid..], Plain(User, "");
    var tail := [note] + (half + [user]);
    KeptHalfIsSound(history);
    PlainFirst(note, half + [user]);
    PairedUpToUser(half, user);
    CompressedPrompt(history, base, summary, tail);
    FirstMessageAnswered(history[0], tail);
    if history[0].role == Tool {
      PlainFirst(Plain(System, SystemText(base, summary)), tail);
    } else {
      PlainFirst(Plain(System, SystemText(base, summary)), [history[0]] + tail);
    }
  }

  lemma CompressedPrompt(history: seq<Message>, base: string, summary: string, tail: seq<Message>)
    requires |history| > 4
    requires tail == [CompressionNote(DroppedCount(|history|))]
                     + (history[1 + DroppedCount(|history|)..] + [Plain(User, "")])
    ensures Build(Compressed(history), base, summary, "")
            == [Plain(System, SystemText(base, summary))]
               + if history[0].role == Tool then tail else [history[0]] + tail
  {
    var compressed := Compressed(history);
    var half := history[1 + DroppedCount(|history|)..];
    assert compressed[1..] == [CompressionNote(DroppedCount(|history|))] + half;
    if history[0].role == Tool {
      assert Strip(compressed) == compressed[1..];
    }
  }

  /** A first message followed by the note is paired with what follows only if it calls no tools. */
  lemma FirstMessageAnswered(m: Message, tail: seq<Message>)
    requires tail != [] && tail[0].role != Tool
    ensures m.role != Tool ==> (Paired([m] + tail) <==> m.toolCalls == [] && Paired(tail))
  {
    if m.role != Tool {
      if m.toolCalls == [] {
        PlainFirst(m, tail);
      } else {
        assert ([m] + tail)[1..] == tail;
      }
    }
  }

  lemma PairedUpToUser(half: seq<Message>, user: Message)
    requires half != [] && Sound(half) && IsPlain(user)
    ensures Paired(half + [user]) <==> half[0].role != Tool
  {
    if half[0].role != Tool {
      PlainIsPaired(user);
      PairedAppend(half, [user]);
    }
  }
}
