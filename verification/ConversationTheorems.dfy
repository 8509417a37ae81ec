/** When every prompt of a conversation is paired: exactly when each compression in it was clean. */
module ConversationTheorems {
  import opened Prelude
  import opened Transcript
  import opened SessionManager
  import opened AgentLoop
  import opened AgentTheorems

  /**
    * Compressing this history separates no result from its call: it is short, or its first message calls no tools
    * or is a cut-off result, and the half that is kept does not begin with a result.
    */
  predicate Clean(history: seq<Message>) {
    |history| <= 4
    || (&& (history[0].role == Tool || history[0].toolCalls == [])
        && history[1 + DroppedCount(|history|)].role != Tool)
  }

  /** Every compression in the retries of one model call is clean. */
  predicate AskClean(env: Env, s: State, summary: string, retry: nat)
    requires retry <= MAX_RETRIES
    decreases MAX_RETRIES - retry
  {
    env.chat(|s.sent|) == ContextError && retry < MAX_RETRIES ==>
      Clean(s.history) && AskClean(env, Squeezed(env, Sent(s), summary), summary, retry + 1)
  }

  predicate IterateClean(env: Env, s: State, summary: string, left: nat)
    decreases left
  {
    left > 0 ==>
      && AskClean(env, s, summary, 0)
      && var (s1, reply) := Ask(env, s, summary, 0);
      AsksForTools(reply) ==> IterateClean(env, WithBlock(env, s1, reply.content, reply.calls), summary, left - 1)
  }

  predicate StepClean(env: Env, session: Session, sent: seq<seq<Message>>, e: Event, max: nat) {
    e.Asked? ==> IterateClean(env, TurnStart(env, session, sent, e.opts), session.summary, max)
  }

  /** Every compression of a whole conversation is clean. */
  predicate TalkClean(env: Env, session: Session, sent: seq<seq<Message>>, events: seq<Event>, max: nat)
    decreases |events|
  {
    events != [] ==>
      && StepClean(env, session, sent, events[0], max)
      && var (session', sent') := Step(env, session, sent, events[0], max);
      TalkClean(env, session', sent', events[1..], max)
  }

  // ---------- One compression ----------

  lemma CleanCompression(history: seq<Message>, base: string, summary: string)
    requires Sound(history)
    ensures Clean(history) <==> Paired(Build(Compressed(history), base, summary, ""))
    ensures Clean(history) ==> Sound(Compressed(history))
  {
    if |history| <= 4 {
      PromptIsPaired(history, base, summary, "");
    } else {
      SoundIsPatched(history);
      CompressedPromptIsPairedIff(history, base, summary);
      if Clean(history) {
        CleanKeepsSound(history);
      }
    }
  }

  lemma CompressedParts(history: seq<Message>) returns (note: Message, half: seq<Message>)
    requires |history| > 4
    ensures IsPlain(note) && half == history[1 + DroppedCount(|history|)..] && half != []
    ensures Compressed(history) == [history[0]] + ([note] + half)
  {
    note, half := CompressionNote(DroppedCount(|history|)), history[1 + DroppedCount(|history|)..];
  }

  lemma CleanKeepsSound(history: seq<Message>)
    requires Sound(history) && |history| > 4 && Clean(history)
    ensures Sound(Compressed(history))
  {
    var note, half := CompressedParts(history);
    SoundTruncated(history, 1 + DroppedCount(|history|));
    NotedIsSound(history[0], note, half);
  }

  /** A first message without open calls, a plain note, and a sound history that does not begin with a result. */
  lemma NotedIsSound(first: Message, note: Message, half: seq<Message>)
    requires IsPlain(note) && Sound(half) && half != [] && half[0].role != Tool
    requires first.role == Tool || first.toolCalls == []
    ensures Sound([first] + ([note] + half))
  {
    assert Strip(half) == half;
    PlainFirst(note, half);
    var rest := [note] + half;
    assert Strip(rest) == rest && ([first] + rest)[1..] == rest;
    if first.role != Tool {
      PlainFirst(first, rest);
    }
  }

  // ---------- One model call, one turn ----------

  lemma {:induction false} AskSendsPrompt(env: Env, s: State, summary: string, retry: nat)
    requires retry <= MAX_RETRIES
    ensures s.sent + [s.prompt] <= Ask(env, s, summary, retry).0.sent
    decreases MAX_RETRIES - retry
  {
    if env.chat(|s.sent|) == ContextError && retry < MAX_RETRIES {
      var next := Squeezed(env, Sent(s), summary);
      AskSendsPrompt(env, next, summary, retry + 1);
      assert next.sent == s.sent + [s.prompt];
    }
  }

  lemma UnpairedStays(sent: seq<seq<Message>>, later: seq<seq<Message>>)
    requires sent <= later && !AllPaired(sent)
    ensures !AllPaired(later)
  {
    var p :| p in sent && !Paired(p);
    assert p in later;
  }

  /** What a sound start makes of sending prompts: paired prompts and a sound history, if clean. */
  predicate KeepsPairing(clean: bool, s: State) {
    && (AllPaired(s.sent) <==> clean)
    && (clean ==> Sound(s.history) && Paired(s.prompt))
  }

  lemma SentIsPaired(s: State)
    requires AllPaired(s.sent)
    ensures AllPaired(Sent(s).sent) <==> Paired(s.prompt)
  {
    assert s.prompt in Sent(s).sent;
  }

  lemma AskUnpaired(env: Env, s: State, summary: string, retry: nat)
    requires retry <= MAX_RETRIES && !Paired(s.prompt)
    ensures !AllPaired(Ask(env, s, summary, retry).0.sent)
  {
    var sent := s.sent + [s.prompt];
    AskSendsPrompt(env, s, summary, retry);
    assert s.prompt in sent;
    UnpairedStays(sent, Ask(env, s, summary, retry).0.sent);
  }

  /** A retry goes on from the squeezed state, whose prompt is paired exactly if the compression was clean. */
  lemma AskRetries(env: Env, s: State, summary: string, retry: nat) returns (next: State)
    requires retry < MAX_RETRIES && env.chat(|s.sent|) == ContextError && Sound(s.history)
    ensures Ask(env, s, summary, retry) == Ask(env, next, summary, retry + 1)
    ensures AskClean(env, s, summary, retry) <==> Clean(s.history) && AskClean(env, next, summary, retry + 1)
    ensures next.sent == Sent(s).sent && (Clean(s.history) <==> Paired(next.prompt))
    ensures Clean(s.history) ==> Sound(next.history)
  {
    next := Squeezed(env, Sent(s), summary);
    CleanCompression(s.history, env.systemPrompt, summary);
  }

  lemma {:induction false} AskIsPairedIff(env: Env, s: State, summary: string, retry: nat)
    requires retry <= MAX_RETRIES && Sound(s.history) && Paired(s.prompt) && AllPaired(s.sent)
    ensures KeepsPairing(AskClean(env, s, summary, retry), Ask(env, s, summary, retry).0)
    decreases MAX_RETRIES - retry
  {
    SentIsPaired(s);
    if env.chat(|s.sent|) == ContextError && retry < MAX_RETRIES {
      var next := AskRetries(env, s, summary, retry);
      if Clean(s.history) {
        AskIsPairedIff(env, next, summary, retry + 1);
      } else {
        AskUnpaired(env, next, summary, retry + 1);
      }
    }
  }

  /** Pairing after a call and the iterations behind it, from pairing after each. */
  lemma PairingOfBoth(clean: bool, s1: State, laterClean: bool, final: State)
    requires KeepsPairing(clean, s1) && s1.sent <= final.sent
    requires clean ==> KeepsPairing(laterClean, final)
    ensures KeepsPairing(clean && laterClean, final)
  {
    if !clean {
      UnpairedStays(s1.sent, final.sent);
    }
  }

  lemma {:induction false} LaterIterationsArePairedIff(
      env: Env, s1: State, reply: Reply, clean: bool, summary: string, left: nat)
    requires AsksForTools(reply) && KeepsPairing(clean, s1)
    ensures var next := WithBlock(env, s1, reply.content, reply.calls);
            KeepsPairing(clean && IterateClean(env, next, summary, left), Iterate(env, next, summary, left).state)
    decreases left, 2
  {
    var next := WithBlock(env, s1, reply.content, reply.calls);
    IterationsAreBounded(env, next, summary, left);
    if clean {
      WithBlockKeepsPairing(env, s1, reply.content, reply.calls);
      IterationIsPairedIff(env, next, summary, left);
    }
    PairingOfBoth(clean, s1, IterateClean(env, next, summary, left), Iterate(env, next, summary, left).state);
  }

  /** One unfolding of the loop, and of what makes it clean, behind a reply that asks for tools. */
  lemma IterateUnfolds(env: Env, s: State, summary: string, left: nat)
    requires left > 0 && AsksForTools(Ask(env, s, summary, 0).1)
    ensures var asked := Ask(env, s, summary, 0);
            var next := WithBlock(env, asked.0, asked.1.content, asked.1.calls);
            && Iterate(env, s, summary, left).state == Iterate(env, next, summary, left - 1).state
            && IterateClean(env, s, summary, left)
               == (AskClean(env, s, summary, 0) && IterateClean(env, next, summary, left - 1))
  {
  }

  lemma {:induction false} ToolIterationIsPairedIff(env: Env, s: State, summary: string, left: nat)
    requires left > 0 && AsksForTools(Ask(env, s, summary, 0).1)
    requires KeepsPairing(AskClean(env, s, summary, 0), Ask(env, s, summary, 0).0)
    ensures KeepsPairing(IterateClean(env, s, summary, left), Iterate(env, s, summary, left).state)
    decreases left, 0
  {
    IterateUnfolds(env, s, summary, left);
    var asked := Ask(env, s, summary, 0);
    LaterIterationsArePairedIff(env, asked.0, asked.1, AskClean(env, s, summary, 0), summary, left - 1);
  }

  lemma {:induction false} IterationIsPairedIff(env: Env, s: State, summary: string, left: nat)
    requires Sound(s.history) && Paired(s.prompt) && AllPaired(s.sent)
    ensures KeepsPairing(IterateClean(env, s, summary, left), Iterate(env, s, summary, left).state)
    decreases left, 1
  {
    if left > 0 {
      AskIsPairedIff(env, s, summary, 0);
      if AsksForTools(Ask(env, s, summary, 0).1) {
        ToolIterationIsPairedIff(env, s, summary, left);
      }
    }
  }

  // ---------- Whole conversations ----------

  lemma StartIsPaired(env: Env, session: Session, sent: seq<seq<Message>>, opts: TurnOptions)
    requires Sound(session.messages)
    ensures var s := TurnStart(env, session, sent, opts); Sound(s.history) && Paired(s.prompt) && s.sent == sent
  {
    PlainIsPaired(Plain(User, opts.userMessage));
    SoundAppend(session.messages, [Plain(User, opts.userMessage)]);
    PromptIsPaired(if opts.noHistory then [] else session.messages, env.systemPrompt,
                   if opts.noHistory then "" else session.summary, opts.userMessage);
  }

  lemma StepIsPairedIff(env: Env, session: Session, sent: seq<seq<Message>>, e: Event, max: nat)
    requires Sound(session.messages) && AllPaired(sent)
    ensures var (session', sent') := Step(env, session, sent, e, max);
            && (AllPaired(sent') <==> StepClean(env, session, sent, e, max))
            && (StepClean(env, session, sent, e, max) ==> Sound(session'.messages))
  {
    match e
    case Asked(opts) =>
      var start := TurnStart(env, session, sent, opts);
      StartIsPaired(env, session, sent, opts);
      IterationIsPairedIff(env, start, session.summary, max);
      var r := Iterate(env, start, session.summary, max);
      if r.outcome.Done? && IterateClean(env, start, session.summary, max) {
        var final := Plain(Assistant, if r.outcome.content == "" then opts.defaultResponse else r.outcome.content);
        PlainIsPaired(final);
        SoundAppend(r.state.history, [final]);
      }
    case Summary(_) => TruncatedIsSound(session.messages, KEEP_AFTER_SUMMARY);
    case Cut(keepLast) => TruncatedIsSound(session.messages, keepLast);
  }

  /**
    * Through any turns, failed turns, retries, summarizations and truncations: every prompt ever sent is fully
    * paired if and only if every compression was clean; and then the stored history is a suffix of a paired
    * transcript.
    */
  lemma {:induction false} ConversationIsPairedIff(
      env: Env, session: Session, sent: seq<seq<Message>>, events: seq<Event>, max: nat)
    requires Sound(session.messages) && AllPaired(sent)
    ensures var (session', sent') := Converse(env, session, sent, events, max);
            && (AllPaired(sent') <==> TalkClean(env, session, sent, events, max))
            && (TalkClean(env, session, sent, events, max) ==>
                  exists whole :: Paired(whole) && IsSuffix(session'.messages, whole))
    decreases |events|
  {
    if events == [] {
      SoundIffSuffixOfPaired(session.messages);
    } else {
      var (session', sent') := Step(env, session, sent, events[0], max);
      StepIsPairedIff(env, session, sent, events[0], max);
      if StepClean(env, session, sent, events[0], max) {
        ConversationIsPairedIff(env, session', sent', events[1..], max);
      } else {
        ConverseOnlySends(env, session', sent', events[1..], max);
        UnpairedStays(sent', Converse(env, session', sent', events[1..], max).1);
      }
    }
  }

  // ---------- Conversations without overflow ----------

  /** No model call numbered from `i` up to `j` reports an overflowing context. */
  ghost predicate ContextFits(env: Env, i: nat, j: nat) {
    forall k :: i <= k < j ==> env.chat(k) != ContextError
  }

  lemma {:induction false} FittingIterationIsClean(env: Env, s: State, summary: string, left: nat)
    requires ContextFits(env, |s.sent|, |Iterate(env, s, summary, left).state.sent|)
    ensures IterateClean(env, s, summary, left)
    decreases left
  {
    if left > 0 {
      IterationsAreBounded(env, s, summary, left);
      var (s1, reply) := Ask(env, s, summary, 0);
      if AsksForTools(reply) {
        AskSendsPrompt(env, s, summary, 0);
        FittingIterationIsClean(env, WithBlock(env, s1, reply.content, reply.calls), summary, left - 1);
      }
    }
  }

  lemma {:induction false} FittingTalkIsClean(
      env: Env, session: Session, sent: seq<seq<Message>>, events: seq<Event>, max: nat)
    requires ContextFits(env, |sent|, |Converse(env, session, sent, events, max).1|)
    ensures TalkClean(env, session, sent, events, max)
    decreases |events|
  {
    if events != [] {
      var (session', sent') := Step(env, session, sent, events[0], max);
      StepOnlySends(env, session, sent, events[0], max);
      ConverseOnlySends(env, session', sent', events[1..], max);
      if events[0].Asked? {
        FittingIterationIsClean(env, TurnStart(env, session, sent, events[0].opts), session.summary, max);
      }
      FittingTalkIsClean(env, session', sent', events[1..], max);
    }
  }

  /** As long as no context overflows, every prompt ever sent is fully paired. */
  lemma EveryPromptIsPaired(env: Env, session: Session, sent: seq<seq<Message>>, events: seq<Event>, max: nat)
    requires Sound(session.messages) && AllPaired(sent)
    requires ContextFits(env, |sent|, |Converse(env, session, sent, events, max).1|)
    ensures var (session', sent') := Converse(env, session, sent, events, max);
            && AllPaired(sent')
            && exists whole :: Paired(whole) && IsSuffix(session'.messages, whole)
  {
    FittingTalkIsClean(env, session, sent, events, max);
    ConversationIsPairedIff(env, session, sent, events, max);
  }

  // ---------- A conversation that sends an unpaired prompt ----------

  /** The model asks for one tool, for one more, and then overflows. */
  predicate OverflowsAfterTwoTools(env: Env) {
    && AsksForTools(env.chat(0)) && |env.chat(0).calls| == 1
    && AsksForTools(env.chat(1)) && |env.chat(1).calls| == 1
    && env.chat(2) == ContextError
  }

  function OverflowingEnv(): Env {
    Env(n => if n < 2 then Answer("", [ToolCall("t", "", "")]) else if n == 2 then ContextError else Answer("", []),
        (n, i) => "", "")
  }

  function AfterTools(env: Env, s: State): State
    requires AsksForTools(env.chat(|s.sent|))
  {
    WithBlock(env, Sent(s), env.chat(|s.sent|).content, env.chat(|s.sent|).calls)
  }

  lemma ToolsThenUnclean(env: Env, s: State, summary: string, left: nat)
    requires left > 0 && AsksForTools(env.chat(|s.sent|))
    requires !IterateClean(env, AfterTools(env, s), summary, left - 1)
    ensures !IterateClean(env, s, summary, left)
  {
    assert Ask(env, s, summary, 0) == (Sent(s), env.chat(|s.sent|));
  }

  lemma OneCallBlock(env: Env, call: nat, content: string, calls: seq<ToolCall>)
    requires |calls| == 1
    ensures |Block(env, call, content, calls)| == 2 && Block(env, call, content, calls)[1].role == Tool
  {
  }

  /** The third prompt overflows with a question and two answered calls stored: the kept half starts with a result. */
  lemma SecondResultIsOrphaned(env: Env, s: State, summary: string, left: nat)
    requires OverflowsAfterTwoTools(env) && |s.sent| == 0 && |s.history| == 1 && left > 2
    ensures !IterateClean(env, s, summary, left)
  {
    var s1 := AfterTools(env, s);
    OneCallBlock(env, 1, env.chat(0).content, env.chat(0).calls);
    var s2 := AfterTools(env, s1);
    OneCallBlock(env, 2, env.chat(1).content, env.chat(1).calls);
    assert |s2.history| == 5 && s2.history[2].role == Tool;
    assert !AskClean(env, s2, summary, 0);
    ToolsThenUnclean(env, s1, summary, left - 1);
    ToolsThenUnclean(env, s, summary, left);
  }

  /** From an empty session, one turn that overflows after two tool calls sends an unpaired prompt. */
  lemma OverflowSendsUnpaired(env: Env, opts: TurnOptions, max: nat)
    requires OverflowsAfterTwoTools(env) && max > 2
    ensures !AllPaired(Converse(env, Session([], ""), [], [Asked(opts)], max).1)
  {
    var session, events := Session([], ""), [Asked(opts)];
    SecondResultIsOrphaned(env, TurnStart(env, session, [], opts), "", max);
    assert !StepClean(env, session, [], events[0], max);
    ConversationIsPairedIff(env, session, [], events, max);
  }

  lemma OverflowHappens(opts: TurnOptions)
    ensures OverflowsAfterTwoTools(OverflowingEnv())
    ensures !AllPaired(Converse(OverflowingEnv(), Session([], ""), [], [Asked(opts)], 3).1)
  {
    OverflowSendsUnpaired(OverflowingEnv(), opts, 3);
  }
}
