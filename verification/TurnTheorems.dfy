/** What a turn answers, sends and stores, told from the model's replies alone. */
module TurnTheorems {
  import opened Prelude
  import opened Transcript
  import opened SessionManager
  import opened AgentLoop
  import opened AgentTheorems
  import opened ConversationTheorems

  // ---------- The answer ----------

  /** The reply to the last prompt of a list. */
  function LastReply(env: Env, sent: seq<seq<Message>>): Reply
    requires sent != []
  {
    env.chat(|sent| - 1)
  }

  lemma {:induction false} AskEndsWithReply(env: Env, s: State, summary: string, retry: nat)
    requires retry <= MAX_RETRIES
    ensures |s.sent| < |Ask(env, s, summary, retry).0.sent|
    ensures Ask(env, s, summary, retry).1 == LastReply(env, Ask(env, s, summary, retry).0.sent)
    decreases MAX_RETRIES - retry
  {
    if env.chat(|s.sent|) == ContextError && retry < MAX_RETRIES {
      AskEndsWithReply(env, Squeezed(env, Sent(s), summary), summary, retry + 1);
    }
  }

  /** A context error reaches the turn if and only if three calls in a row end in one. */
  lemma AskGivesUpIff(env: Env, s: State, summary: string)
    ensures var n := |s.sent|;
            Ask(env, s, summary, 0).1 == ContextError
            <==> env.chat(n) == ContextError && env.chat(n + 1) == ContextError && env.chat(n + 2) == ContextError
  {
    var s1 := Squeezed(env, Sent(s), summary);
    var s2 := Squeezed(env, Sent(s1), summary);
    assert |s1.sent| == |s.sent| + 1 && |s2.sent| == |s.sent| + 2;
    if env.chat(|s.sent|) == ContextError {
      AskAgain(env, s, summary, 0);
      if env.chat(|s.sent| + 1) == ContextError {
        AskAgain(env, s1, summary, 1);
        assert Ask(env, s2, summary, 2) == (Sent(s2), env.chat(|s2.sent|));
      }
    }
  }

  /** What the last reply makes of the loop. */
  predicate EndsBy(reply: Reply, left: nat, r: Iterated) {
    && (!reply.Answer? ==> r.outcome == Failed)
    && (reply.Answer? && reply.calls == [] ==> r.outcome == Done(reply.content))
    && (reply.Answer? && reply.calls != [] ==> r.outcome == Done("") && r.iterations == left)
  }

  lemma {:induction false} LoopEndsByLastReply(env: Env, s: State, summary: string, left: nat)
    requires left > 0
    ensures var r := Iterate(env, s, summary, left);
            |s.sent| < |r.state.sent| && EndsBy(LastReply(env, r.state.sent), left, r)
    decreases left
  {
    AskEndsWithReply(env, s, summary, 0);
    var (s1, reply) := Ask(env, s, summary, 0);
    IterateOnce(env, s, s1, reply, summary, left);
    if AsksForTools(reply) {
      var next := WithBlock(env, s1, reply.content, reply.calls);
      if left == 1 {
        IterateNone(env, next, summary);
      } else {
        LoopEndsByLastReply(env, next, summary, left - 1);
      }
    }
  }

  /** The history ends with something for the model to answer: no message of its own. */
  predicate AwaitsReply(history: seq<Message>) {
    history != [] && history[|history| - 1].role != Assistant
  }

  lemma CompressedAwaitsReply(history: seq<Message>)
    requires AwaitsReply(history)
    ensures AwaitsReply(Compressed(history))
  {
    if |history| > 4 {
      CompressionKeeps(history);
    }
  }

  lemma BlockAwaitsReply(history: seq<Message>, env: Env, call: nat, content: string, calls: seq<ToolCall>)
    requires calls != []
    ensures AwaitsReply(history + Block(env, call, content, calls))
  {
    var block := Block(env, call, content, calls);
    assert block[|block| - 1].role == Tool;
  }

  /** A property of stored histories that compressions and recorded tool calls keep. */
  ghost predicate Kept(env: Env, p: seq<Message> -> bool) {
    && (forall h :: p(h) ==> p(Compressed(h)))
    && (forall h, call: nat, content, calls :: p(h) && calls != [] ==> p(h + Block(env, call, content, calls)))
  }

  lemma {:induction false} AskKeeps(env: Env, s: State, summary: string, retry: nat, p: seq<Message> -> bool)
    requires retry <= MAX_RETRIES && Kept(env, p) && p(s.history)
    ensures p(Ask(env, s, summary, retry).0.history)
    decreases MAX_RETRIES - retry
  {
    if env.chat(|s.sent|) == ContextError && retry < MAX_RETRIES {
      AskAgain(env, s, summary, retry);
      AskKeeps(env, Squeezed(env, Sent(s), summary), summary, retry + 1, p);
    }
  }

  lemma {:induction false} LoopKeeps(env: Env, s: State, summary: string, left: nat, p: seq<Message> -> bool)
    requires Kept(env, p) && p(s.history)
    ensures p(Iterate(env, s, summary, left).state.history)
    decreases left
  {
    if left == 0 {
      IterateNone(env, s, summary);
    } else {
      var asked := Ask(env, s, summary, 0);
      AskKeeps(env, s, summary, 0, p);
      IterateOnce(env, s, asked.0, asked.1, summary, left);
      if AsksForTools(asked.1) {
        var next := WithBlock(env, asked.0, asked.1.content, asked.1.calls);
        assert p(asked.0.history + Block(env, |asked.0.sent|, asked.1.content, asked.1.calls));
        LoopKeeps(env, next, summary, left - 1, p);
      }
    }
  }

  lemma LoopAwaitsReply(env: Env, s: State, summary: string, left: nat)
    requires AwaitsReply(s.history)
    ensures AwaitsReply(Iterate(env, s, summary, left).state.history)
  {
    forall h | AwaitsReply(h) ensures AwaitsReply(Compressed(h)) {
      CompressedAwaitsReply(h);
    }
    forall h, call: nat, content, calls | calls != [] ensures AwaitsReply(h + Block(env, call, content, calls)) {
      BlockAwaitsReply(h, env, call, content, calls);
    }
    LoopKeeps(env, s, summary, left, AwaitsReply);
  }

  /** The turn answered this, and stored it last as the assistant's message. */
  predicate Answers(session: Session, outcome: Outcome, content: string) {
    && outcome == Done(content)
    && session.messages != [] && session.messages[|session.messages| - 1] == Message(Assistant, content, [], "")
  }

  /**
    * A turn is decided by the reply to its last prompt: an answer without tool calls is given and stored, or the
    * default response in place of an empty one; an error fails the turn, and no answer is stored; and a reply that
    * asks for tools is the last only at the iteration limit, where the default response is given.
    */
  lemma TurnAnswersLastReply(env: Env, session: Session, sent: seq<seq<Message>>, opts: TurnOptions, max: nat)
    requires max > 0
    ensures var (session', sent', outcome) := Turn(env, session, sent, opts, max);
            && |sent| < |sent'| && session'.summary == session.summary
            && var last := LastReply(env, sent');
            && (last.Answer? && last.calls == [] && last.content != "" ==> Answers(session', outcome, last.content))
            && (last.Answer? && last.calls == [] && last.content == "" ==>
                  Answers(session', outcome, opts.defaultResponse))
            && (!last.Answer? ==> outcome == Failed && AwaitsReply(session'.messages))
            && (last.Answer? && last.calls != [] ==>
                  Answers(session', outcome, opts.defaultResponse) && max <= |sent'| - |sent|)
  {
    var start := TurnStart(env, session, sent, opts);
    LoopEndsByLastReply(env, start, session.summary, max);
    LoopAwaitsReply(env, start, session.summary, max);
    IterationsAreBounded(env, start, session.summary, max);
  }

  // ---------- The transcript ----------

  /** The results of the first `k` calls of the `n`-th reply, each under its call's id. */
  function Results(env: Env, n: nat, calls: seq<ToolCall>, k: nat): seq<Message>
    requires k <= |calls|
  {
    if k == 0 then [] else Results(env, n, calls, k - 1) + [Message(Tool, env.tool(n + 1, k - 1), [], calls[k - 1].id)]
  }

  /** What the replies from the `n`-th on, `count` of them, add to the transcript: each with all its results. */
  function Exchanges(env: Env, n: nat, count: nat): seq<Message>
    requires forall i :: n <= i < n + count ==> env.chat(i).Answer?
    decreases count
  {
    if count == 0 then []
    else
      var reply := env.chat(n);
      [Message(Assistant, reply.content, reply.calls, "")] + Results(env, n, reply.calls, |reply.calls|)
      + Exchanges(env, n + 1, count - 1)
  }

  lemma {:induction false} ResultsAt(env: Env, n: nat, calls: seq<ToolCall>, k: nat)
    requires k <= |calls|
    ensures |Results(env, n, calls, k)| == k
    ensures forall i :: 0 <= i < k ==> Results(env, n, calls, k)[i] == Message(Tool, env.tool(n + 1, i), [], calls[i].id)
  {
    if k > 0 {
      ResultsAt(env, n, calls, k - 1);
    }
  }

  lemma BlockIsExchange(env: Env, n: nat, content: string, calls: seq<ToolCall>)
    ensures Block(env, n + 1, content, calls) == [Message(Assistant, content, calls, "")] + Results(env, n, calls, |calls|)
  {
    ResultsAt(env, n, calls, |calls|);
  }

  /** The replies numbered from `n` on, `count` of them, all ask for tools. */
  ghost predicate ToolsAsked(env: Env, n: nat, count: nat) {
    forall i :: n <= i < n + count ==> env.chat(i).Answer? && env.chat(i).calls != []
  }

  /** How many of the `calls` replies from the `n`-th on asked for tools, when all but the last did. */
  function RoundsOf(env: Env, n: nat, calls: nat): nat {
    if calls > 0 && !AsksForTools(env.chat(n + calls - 1)) then calls - 1 else calls
  }

  /** All replies but the last asked for tools; each prompt is the first with all exchanges since, as is the history. */
  ghost predicate Went(env: Env, s: State, after: State) {
    var n := |s.sent|;
    && s.sent <= after.sent
    && var calls := |after.sent| - n;
    && ToolsAsked(env, n, RoundsOf(env, n, calls))
    && (forall k :: 0 <= k < calls ==> after.sent[n + k] == s.prompt + Exchanges(env, n, k))
    && after.history == s.history + Exchanges(env, n, RoundsOf(env, n, calls))
  }

  lemma FittingAsk(env: Env, s: State, summary: string)
    requires env.chat(|s.sent|) != ContextError
    ensures Ask(env, s, summary, 0) == (Sent(s), env.chat(|s.sent|))
  {
  }

  lemma NothingWent(env: Env, s: State)
    ensures Went(env, s, s)
  {
    EmptyIsUnit(s.history);
  }

  lemma LastCallWent(env: Env, s: State)
    requires !AsksForTools(env.chat(|s.sent|))
    ensures Went(env, s, Sent(s))
  {
    EmptyIsUnit(s.history);
    EmptyIsUnit(s.prompt);
  }

  lemma ExchangesFirst(env: Env, n: nat, count: nat, front: seq<Message>)
    requires count > 0 && ToolsAsked(env, n, count)
    ensures ToolsAsked(env, n + 1, count - 1)
    ensures front + Exchanges(env, n, count)
            == front + Block(env, n + 1, env.chat(n).content, env.chat(n).calls) + Exchanges(env, n + 1, count - 1)
  {
    BlockIsExchange(env, n, env.chat(n).content, env.chat(n).calls);
    Regroup(front, Block(env, n + 1, env.chat(n).content, env.chat(n).calls), Exchanges(env, n + 1, count - 1));
  }

  lemma LaterPromptWent(env: Env, n: nat, k: nat, prompt: seq<Message>, block: seq<Message>, later: seq<Message>)
    requires k > 0 && ToolsAsked(env, n, k) && block == Block(env, n + 1, env.chat(n).content, env.chat(n).calls)
    requires ToolsAsked(env, n + 1, k - 1) && later == prompt + block + Exchanges(env, n + 1, k - 1)
    ensures later == prompt + Exchanges(env, n, k)
  {
    ExchangesFirst(env, n, k, prompt);
  }

  lemma LaterPromptsWent(env: Env, s: State, next: State, after: State, block: seq<Message>)
    requires var n := |s.sent|;
             && AsksForTools(env.chat(n)) && block == Block(env, n + 1, env.chat(n).content, env.chat(n).calls)
             && next.prompt == s.prompt + block && |next.sent| == n + 1 && Went(env, next, after)
    ensures forall k :: 1 <= k < |after.sent| - |s.sent| ==>
              ToolsAsked(env, |s.sent|, k) && after.sent[|s.sent| + k] == s.prompt + Exchanges(env, |s.sent|, k)
  {
    var n := |s.sent|;
    forall k | 1 <= k < |after.sent| - n
      ensures ToolsAsked(env, n, k) && after.sent[n + k] == s.prompt + Exchanges(env, n, k)
    {
      assert ToolsAsked(env, n + 1, k - 1) && after.sent[n + 1 + (k - 1)] == next.prompt + Exchanges(env, n + 1, k - 1);
      LaterPromptWent(env, n, k, s.prompt, block, after.sent[n + k]);
    }
  }

  /** A call that asks for tools, and all that followed. */
  lemma ToolCallWent(env: Env, s: State, next: State, after: State, block: seq<Message>)
    requires var n := |s.sent|;
             && AsksForTools(env.chat(n)) && block == Block(env, n + 1, env.chat(n).content, env.chat(n).calls)
    requires next == State(s.history + block, s.prompt + block, s.sent + [s.prompt]) && Went(env, next, after)
    ensures Went(env, s, after)
  {
    var n := |s.sent|;
    var later := |after.sent| - (n + 1);
    var rounds := RoundsOf(env, n + 1, later);
    assert RoundsOf(env, n, later + 1) == rounds + 1;
    assert ToolsAsked(env, n, rounds + 1);
    LaterPromptWent(env, n, rounds + 1, s.history, block, after.history);
    LaterPromptsWent(env, s, next, after, block);
    assert after.sent[n] == next.sent[n] == s.prompt;
    EmptyIsUnit(s.prompt);
  }

  lemma {:induction false} FittingLoopWent(env: Env, s: State, summary: string, left: nat)
    requires ContextFits(env, |s.sent|, |Iterate(env, s, summary, left).state.sent|)
    ensures Went(env, s, Iterate(env, s, summary, left).state)
    decreases left
  {
    IterationsAreBounded(env, s, summary, left);
    if left == 0 {
      NothingWent(env, s);
    } else {
      var reply := env.chat(|s.sent|);
      LoopEndsByLastReply(env, s, summary, left);
      FittingAsk(env, s, summary);
      IterateOnce(env, s, Sent(s), reply, summary, left);
      if AsksForTools(reply) {
        var next := WithBlock(env, Sent(s), reply.content, reply.calls);
        FittingLoopWent(env, next, summary, left - 1);
        ToolCallWent(env, s, next, Iterate(env, next, summary, left - 1).state,
                     Block(env, |s.sent| + 1, reply.content, reply.calls));
      } else {
        LastCallWent(env, s);
      }
    }
  }

  /** The first prompt of a turn: system prompt and summary, what was said before, and the question. */
  ghost predicate IsFirstPrompt(prompt: seq<Message>, env: Env, session: Session, opts: TurnOptions) {
    && |prompt| >= 2
    && prompt[0].role == System && env.systemPrompt <= prompt[0].content
    && prompt[1..|prompt| - 1] == (if opts.noHistory then [] else Strip(session.messages))
    && prompt[|prompt| - 1] == Message(User, opts.userMessage, [], "")
    && (opts.noHistory || session.summary == "" ==> prompt[0].content == env.systemPrompt)
    && (!opts.noHistory ==> IsSuffix(session.summary, prompt[0].content))
  }

  lemma FirstPrompt(env: Env, session: Session, sent: seq<seq<Message>>, opts: TurnOptions)
    ensures IsFirstPrompt(TurnStart(env, session, sent, opts).prompt, env, session, opts)
  {
  }

  /** The prompts are a first one, and that with the exchanges so far; stored are question, exchanges and answer. */
  ghost predicate Transcribed(env: Env, session: Session, sent: seq<seq<Message>>, opts: TurnOptions,
                              session': Session, sent': seq<seq<Message>>, outcome: Outcome) {
    && sent <= sent'
    && var n, calls := |sent|, |sent'| - |sent|;
    var rounds := RoundsOf(env, n, calls);
    && ToolsAsked(env, n, rounds)
    && (calls > 0 ==> IsFirstPrompt(sent'[n], env, session, opts))
    && (forall k :: 0 <= k < calls ==> sent'[n + k] == sent'[n] + Exchanges(env, n, k))
    && session'.messages == session.messages + [Message(User, opts.userMessage, [], "")] + Exchanges(env, n, rounds)
                            + if outcome.Done? then [Message(Assistant, outcome.content, [], "")] else []
  }

  lemma WentIsTranscribed(env: Env, session: Session, sent: seq<seq<Message>>, opts: TurnOptions,
                          start: State, after: State, outcome: Outcome)
    requires start.sent == sent && start.history == session.messages + [Message(User, opts.userMessage, [], "")]
    requires IsFirstPrompt(start.prompt, env, session, opts) && Went(env, start, after)
    ensures var final := if outcome.Done? then [Message(Assistant, outcome.content, [], "")] else [];
            Transcribed(env, session, sent, opts, session.(messages := after.history + final), after.sent, outcome)
  {
    if |after.sent| > |sent| {
      FirstIsStart(env, start, after);
    }
  }

  lemma FirstIsStart(env: Env, start: State, after: State)
    requires Went(env, start, after) && |start.sent| < |after.sent|
    ensures after.sent[|start.sent|] == start.prompt
  {
    EmptyIsUnit(start.prompt);
    assert after.sent[|start.sent| + 0] == start.prompt + Exchanges(env, |start.sent|, 0);
  }

  lemma TurnStarts(env: Env, session: Session, sent: seq<seq<Message>>, opts: TurnOptions)
    ensures var start := TurnStart(env, session, sent, opts);
            && start.sent == sent && start.history == session.messages + [Message(User, opts.userMessage, [], "")]
            && IsFirstPrompt(start.prompt, env, session, opts)
  {
    FirstPrompt(env, session, sent, opts);
  }

  lemma TurnEnds(env: Env, session: Session, sent: seq<seq<Message>>, opts: TurnOptions, max: nat)
    ensures var after := Iterate(env, TurnStart(env, session, sent, opts), session.summary, max).state;
            var (session', sent', outcome) := Turn(env, session, sent, opts, max);
            && sent' == after.sent
            && session' == session.(messages := after.history
                                    + if outcome.Done? then [Message(Assistant, outcome.content, [], "")] else [])
  {
    EmptyIsUnit(Iterate(env, TurnStart(env, session, sent, opts), session.summary, max).state.history);
  }

  /**
    * As long as no context overflows: a turn's prompts are a first one, and that one with the exchanges so far;
    * and what it stores are the question, every exchange, and the answer.
    */
  lemma TurnTranscript(env: Env, session: Session, sent: seq<seq<Message>>, opts: TurnOptions, max: nat)
    requires ContextFits(env, |sent|, |Turn(env, session, sent, opts, max).1|)
    ensures var (session', sent', outcome) := Turn(env, session, sent, opts, max);
            Transcribed(env, session, sent, opts, session', sent', outcome)
  {
    var start := TurnStart(env, session, sent, opts);
    TurnStarts(env, session, sent, opts);
    TurnEnds(env, session, sent, opts, max);
    FittingLoopWent(env, start, session.summary, max);
    WentIsTranscribed(env, session, sent, opts, start, Iterate(env, start, session.summary, max).state,
                      Turn(env, session, sent, opts, max).2);
  }

  // ---------- After an overflow ----------

  /** A prompt built anew: system prompt and summary, the stored history, and an empty question. */
  ghost predicate IsRebuiltPrompt(prompt: seq<Message>, env: Env, history: seq<Message>, summary: string) {
    && |prompt| >= 2
    && prompt[0].role == System && env.systemPrompt <= prompt[0].content && IsSuffix(summary, prompt[0].content)
    && prompt[1..|prompt| - 1] == Strip(history)
    && prompt[|prompt| - 1] == Message(User, "", [], "")
  }

  lemma RebuiltPrompt(env: Env, history: seq<Message>, summary: string)
    ensures IsRebuiltPrompt(Build(history, env.systemPrompt, summary, ""), env, history, summary)
  {
  }

  /** When the context overflows, up to twice, the next prompt is built anew from the compressed history alone. */
  lemma OverflowRebuildsPrompt(env: Env, s: State, summary: string, retry: nat)
    requires retry < 2 && env.chat(|s.sent|) == ContextError
    ensures var n, sent := |s.sent|, Ask(env, s, summary, retry).0.sent;
            && n + 2 <= |sent| && sent[n] == s.prompt
            && IsRebuiltPrompt(sent[n + 1], env, Compressed(s.history), summary)
  {
    var next := Squeezed(env, Sent(s), summary);
    AskAgain(env, s, summary, retry);
    AskSendsPrompt(env, next, summary, retry + 1);
    RebuiltPrompt(env, Compressed(s.history), summary);
    assert (next.sent + [next.prompt])[|s.sent|] == s.prompt;
    assert (next.sent + [next.prompt])[|s.sent| + 1] == next.prompt;
  }

  // ---------- What a compression says ----------

  /** What a string of decimal digits denotes. */
  function ValueOf(digits: string): int {
    if digits == [] then 0
    else 10 * ValueOf(digits[..|digits| - 1]) + (digits[|digits| - 1] as int - '0' as int)
  }

  predicate AreDigits(digits: string) {
    digits != [] && forall c <- digits :: '0' <= c <= '9'
  }

  lemma DigitReadsBack(n: nat)
    requires n < 10
    ensures |Decimal(n)| == 1 && AreDigits(Decimal(n)) && ValueOf(Decimal(n)) == n
  {
    var digits := Decimal(n);
    assert digits[0] as int == '0' as int + n;
    assert digits[..0] == [];
  }

  lemma ValuePush(digits: string, digit: string)
    requires |digit| == 1
    ensures ValueOf(digits + digit) == 10 * ValueOf(digits) + ValueOf(digit)
  {
    assert (digits + digit)[..|digits|] == digits;
    assert digit[..0] == [];
  }

  lemma {:induction false} DecimalReadsBack(n: nat)
    ensures AreDigits(Decimal(n)) && ValueOf(Decimal(n)) == n
  {
    if n < 10 {
      DigitReadsBack(n);
    } else {
      DecimalReadsBack(n / 10);
      DigitReadsBack(n % 10);
      ValuePush(Decimal(n / 10), Decimal(n % 10));
    }
  }

  /** The note in a compressed history tells, in decimal digits, how many messages it stands for. */
  lemma CompressionTellsDropped(history: seq<Message>) returns (digits: string)
    requires |history| > 4
    ensures AreDigits(digits)
    ensures var c := Compressed(history);
            && c[1].role == System
            && c[1].content == "[System: Emergency compression dropped " + digits
                               + " oldest messages due to context limit]"
            && ValueOf(digits) == |history| - (|c| - 1)
  {
    digits := Decimal(DroppedCount(|history|));
    DecimalReadsBack(DroppedCount(|history|));
  }

  // ---------- Summaries ----------

  /** A message the summarizer can be given: said by either side, and not too long. */
  predicate Usable(m: Message, contextWindow: nat) {
    (m.role == User || m.role == Assistant) && |m.content| / 2 <= contextWindow / 2
  }

  lemma {:induction false} SummarizableAreUsable(messages: seq<Message>, contextWindow: nat)
    ensures forall m :: m in Summarizable(messages, contextWindow / 2) <==> m in messages && Usable(m, contextWindow)
    ensures forall m :: Usable(m, contextWindow) ==>
              multiset(Summarizable(messages, contextWindow / 2))[m] == multiset(messages)[m]
  {
    if messages != [] {
      var front, last := Pop(messages);
      SummarizableAreUsable(front, contextWindow);
    }
  }

  /** A model that answers with the summary it was given so far. */
  const ECHO := Summarizer((batch, summary) => summary, (a, b) => None)

  /**
    * A new summary takes the previous one into account if and only if between one and ten of the older messages are
    * usable: with more of them two halves are summarized anew, and what was said before them is forgotten.
    */
  lemma OldSummaryCountsIff(contextWindow: nat, older: seq<Message>)
    ensures (exists llm: Summarizer, p: string, q: string ::
               SummaryText(llm, contextWindow, older, p) != SummaryText(llm, contextWindow, older, q))
            <==> 1 <= |Summarizable(older, contextWindow / 2)| <= 10
  {
    if 1 <= |Summarizable(older, contextWindow / 2)| <= 10 {
      var p, q := "", "a";
      assert |SummaryText(ECHO, contextWindow, older, p)| == 0 && |SummaryText(ECHO, contextWindow, older, q)| >= 1;
    }
  }

  /** Too long a message of either side is among the older ones. */
  predicate SomeTooLong(older: seq<Message>, contextWindow: nat) {
    exists m <- older :: (m.role == User || m.role == Assistant) && |m.content| / 2 > contextWindow / 2
  }

  /** What the model makes of the usable messages: of all at once, or of two halves in their order, merged. */
  function Retold(llm: Summarizer, first: seq<Message>, second: seq<Message>, previous: string): string {
    if second == [] then llm.batch(first, previous)
    else
      var s1, s2 := llm.batch(first, ""), llm.batch(second, "");
      match llm.merge(s1, s2)
      case Some(merged) => merged
      case None => s1 + " " + s2
  }

  /** Each usable message is read once, in order, up to ten in one batch, more in two halves. */
  lemma SummaryReadsAll(llm: Summarizer, contextWindow: nat, older: seq<Message>, previous: string)
      returns (first: seq<Message>, second: seq<Message>)
    ensures var usable := Summarizable(older, contextWindow / 2);
            && first + second == usable && (second != [] <==> |usable| > 10)
            && (second != [] ==> |second| - 1 <= |first| <= |second|)
            && (usable == [] ==> SummaryText(llm, contextWindow, older, previous) == "")
            && (usable != [] ==>
                  var text := Retold(llm, first, second, previous);
                  SummaryText(llm, contextWindow, older, previous)
                  == if text != "" && SomeTooLong(older, contextWindow) then text + OMISSION_NOTE else text)
  {
    var usable := Summarizable(older, contextWindow / 2);
    if |usable| > 10 {
      first, second := usable[..|usable| / 2], usable[|usable| / 2..];
    } else {
      first, second := usable, [];
    }
    assert SomeTooLong(older, contextWindow) <==> AnyOversized(older, contextWindow / 2);
  }

  /** Nothing said is passed over: what summarizing drops from a session is what the summary was made of. */
  lemma SummaryCoversDropped(llm: Summarizer, contextWindow: nat, session: Session) returns (older: seq<Message>)
    ensures SummaryOf(llm, contextWindow, session) != "" ==>
              && SummaryOf(llm, contextWindow, session) == SummaryText(llm, contextWindow, older, session.summary)
              && session.messages == older + Summarized(session, SummaryOf(llm, contextWindow, session)).messages
  {
    older := if |session.messages| > 4 then session.messages[..|session.messages| - 4] else [];
  }

  /** Summarizing a session leaves its last four messages under the new summary; without one, or with four, nothing. */
  lemma SummarizingKeepsFour(session: Session, summary: string)
    ensures var after := Summarized(session, summary);
            if |session.messages| > 4 && summary != ""
            then after.summary == summary && |after.messages| == 4 && IsSuffix(after.messages, session.messages)
            else after == session
  {
  }
}
