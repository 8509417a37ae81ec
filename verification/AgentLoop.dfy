/** One agent turn: building the prompt, the bounded loop of model calls and tool runs, and compression. */
module AgentLoop {
  import opened Prelude
  import opened Transcript
  import opened SessionManager

  const MAX_RETRIES := 2

  /** What a model call returns; a context error is one whose text names tokens, context or length. */
  datatype Reply =
    | Answer(content: string, calls: seq<ToolCall>)
    | ContextError
    | OtherError

  /** The model and the tools as oracles: the n-th call's reply, and the result of its i-th tool call. */
  datatype Env = Env(chat: nat -> Reply, tool: (nat, nat) -> string, systemPrompt: string)

  // ---------- Prompt and compression ----------

  function SystemText(base: string, summary: string): string {
    if summary == "" then base else base + "\n\n## Summary of Previous Conversation\n\n" + summary
  }

  function Build(history: seq<Message>, base: string, summary: string, current: string): seq<Message> {
    [Plain(System, SystemText(base, summary))] + Strip(history) + [Plain(User, current)]
  }

  method BuildMessages(history: seq<Message>, base: string, summary: string, current: string)
      returns (messages: seq<Message>)
    ensures messages == Build(history, base, summary, current)
  {
    var systemPrompt := base;
    if summary != "" {
      systemPrompt := systemPrompt + "\n\n## Summary of Previous Conversation\n\n" + summary;
    }
    var kept := history;
    while |kept| > 0 && kept[0].role == Tool
      invariant Strip(kept) == Strip(history)
    {
      kept := kept[1..];
    }
    messages := [Plain(System, systemPrompt)];
    messages := messages + kept;
    messages := messages + [Plain(User, current)];
  }

  function Decimal(n: nat): string {
    if n < 10 then [['0', '1', '2', '3', '4', '5', '6', '7', '8', '9'][n]] else Decimal(n / 10) + Decimal(n % 10)
  }

  function CompressionNote(dropped: nat): Message {
    Plain(System,
          "[System: Emergency compression dropped " + Decimal(dropped) + " oldest messages due to context limit]")
  }

  /** How many of the messages between the first and the last are dropped. */
  function DroppedCount(n: nat): nat
    requires n >= 2
  {
    (n - 2) / 2
  }

  function Compressed(history: seq<Message>): seq<Message> {
    if |history| <= 4 then history
    else
      var mid := DroppedCount(|history|);
      [history[0], CompressionNote(mid)] + history[1 + mid..]
  }

  // ---------- One turn, as a function of the oracles ----------

  /** The stored history, the prompt of the next call, and every prompt sent so far. */
  datatype State = State(history: seq<Message>, prompt: seq<Message>, sent: seq<seq<Message>>)

  function Sent(s: State): State {
    s.(sent := s.sent + [s.prompt])
  }

  /** Before a retry the stored history is compressed and the prompt is built from it alone. */
  function Squeezed(env: Env, s: State, summary: string): State {
    var history := Compressed(s.history);
    State(history, Build(history, env.systemPrompt, summary, ""), s.sent)
  }

  /** One model call, repeated after compression while the context overflows, at most twice. */
  function Ask(env: Env, s: State, summary: string, retry: nat): (State, Reply)
    requires retry <= MAX_RETRIES
    decreases MAX_RETRIES - retry
  {
    var reply := env.chat(|s.sent|);
    if reply == ContextError && retry < MAX_RETRIES then Ask(env, Squeezed(env, Sent(s), summary), summary, retry + 1)
    else (Sent(s), reply)
  }

  lemma AskAgain(env: Env, s: State, summary: string, retry: nat)
    requires retry < MAX_RETRIES && env.chat(|s.sent|) == ContextError
    ensures Ask(env, s, summary, retry) == Ask(env, Squeezed(env, Sent(s), summary), summary, retry + 1)
  {
  }

  function Result(env: Env, call: nat, calls: seq<ToolCall>, i: nat): Message
    requires i < |calls|
  {
    Message(Tool, env.tool(call, i), [], calls[i].id)
  }

  /** An assistant message with its calls, and the results in the order of the calls. */
  function Block(env: Env, call: nat, content: string, calls: seq<ToolCall>): seq<Message> {
    [Message(Assistant, content, calls, "")]
    + seq(|calls|, i requires 0 <= i < |calls| => Result(env, call, calls, i))
  }

  /** A block recorded both in the stored history and in the prompt. */
  function WithBlock(env: Env, s: State, content: string, calls: seq<ToolCall>): State {
    var block := Block(env, |s.sent|, content, calls);
    s.(history := s.history + block, prompt := s.prompt + block)
  }

  datatype Outcome = Done(content: string) | Failed

  datatype Iterated = Iterated(state: State, iterations: nat, outcome: Outcome)

  function Counted(n: nat, r: Iterated): Iterated {
    r.(iterations := r.iterations + n)
  }

  function Iterate(env: Env, s: State, summary: string, left: nat): Iterated
    decreases left
  {
    if left == 0 then Iterated(s, 0, Done(""))
    else
      var (s, reply) := Ask(env, s, summary, 0);
      if !reply.Answer? then Iterated(s, 1, Failed)
      else if reply.calls == [] then Iterated(s, 1, Done(reply.content))
      else Counted(1, Iterate(env, WithBlock(env, s, reply.content, reply.calls), summary, left - 1))
  }

  datatype TurnOptions = TurnOptions(userMessage: string, defaultResponse: string, noHistory: bool)

  /** Where a turn's iterations start: the message stored, and a prompt from what was stored before it. */
  function TurnStart(env: Env, session: Session, sent: seq<seq<Message>>, opts: TurnOptions): State {
    State(session.messages + [Plain(User, opts.userMessage)],
          Build(if opts.noHistory then [] else session.messages, env.systemPrompt,
                if opts.noHistory then "" else session.summary, opts.userMessage),
          sent)
  }

  /** A whole turn on a session: the session after it, the prompts sent, and the outcome. */
  function Turn(env: Env, session: Session, sent: seq<seq<Message>>, opts: TurnOptions, maxIterations: nat)
    : (Session, seq<seq<Message>>, Outcome)
  {
    var r := Iterate(env, TurnStart(env, session, sent, opts), session.summary, maxIterations);
    match r.outcome
    case Failed => (session.(messages := r.state.history), r.state.sent, Failed)
    case Done(content) =>
      var final := if content == "" then opts.defaultResponse else content;
      (session.(messages := r.state.history + [Plain(Assistant, final)]), r.state.sent, Done(final))
  }

  const KEEP_AFTER_SUMMARY := 4

  /** The summarizing model: a batch with the summary so far, and two summaries merged, which may fail. */
  datatype Summarizer = Summarizer(batch: (seq<Message>, string) -> string, merge: (string, string) -> Option<string>)

  const OMISSION_NOTE := "\n[Note: Some oversized messages were omitted from this summary for efficiency.]"

  predicate Oversized(m: Message, maxTokens: nat) {
    (m.role == User || m.role == Assistant) && |m.content| / 2 > maxTokens
  }

  predicate AnyOversized(messages: seq<Message>, maxTokens: nat) {
    exists m <- messages :: Oversized(m, maxTokens)
  }

  function Summarizable(messages: seq<Message>, maxTokens: nat): seq<Message> {
    if messages == [] then []
    else
      var before, last := Summarizable(messages[..|messages| - 1], maxTokens), messages[|messages| - 1];
      if (last.role == User || last.role == Assistant) && !Oversized(last, maxTokens) then before + [last] else before
  }

  function MergedSummary(llm: Summarizer, messages: seq<Message>, summary: string): string {
    if |messages| <= 10 then llm.batch(messages, summary)
    else
      var mid := |messages| / 2;
      var s1, s2 := llm.batch(messages[..mid], ""), llm.batch(messages[mid..], "");
      var merged := llm.merge(s1, s2);
      if merged.Some? then merged.value else s1 + " " + s2
  }

  /** The new summary of the older messages; empty if there is nothing to say. */
  function SummaryText(llm: Summarizer, contextWindow: nat, toSummarize: seq<Message>, summary: string): string {
    var valid := Summarizable(toSummarize, contextWindow / 2);
    if valid == [] then ""
    else
      var text := MergedSummary(llm, valid, summary);
      if text != "" && AnyOversized(toSummarize, contextWindow / 2) then text + OMISSION_NOTE else text
  }

  function SummaryOf(llm: Summarizer, contextWindow: nat, session: Session): string {
    if |session.messages| <= KEEP_AFTER_SUMMARY then ""
    else SummaryText(llm, contextWindow, session.messages[..|session.messages| - KEEP_AFTER_SUMMARY], session.summary)
  }

  /** Summarizing: nothing for a short history or an empty summary, else the last few messages stay. */
  function Summarized(session: Session, summary: string): Session {
    if |session.messages| <= KEEP_AFTER_SUMMARY || summary == "" then session
    else Session(Truncated(session.messages, KEEP_AFTER_SUMMARY), summary)
  }

  /** Only the session under this key may differ, and only in its messages. */
  predicate OnlyMessages(before: map<string, Session>, after: map<string, Session>, key: string) {
    && key in after
    && after[key].summary == (if key in before then before[key].summary else "")
    && (forall k :: k in before ==> k in after)
    && (forall k :: k in after && k != key ==> k in before && after[k] == before[k])
  }

  // ---------- The code ----------

  class AgentLoop {
    const sessions: SessionManager
    const maxIterations: nat
    const env: Env
    /** Every prompt given to the model, oldest first. */
    var sent: seq<seq<Message>>

    constructor (sessions: SessionManager, maxIterations: nat, env: Env)
      ensures this.sessions == sessions && this.maxIterations == maxIterations && this.env == env && sent == []
    {
      this.sessions := sessions;
      this.maxIterations := maxIterations;
      this.env := env;
      sent := [];
    }

    ghost function Model(key: string, prompt: seq<Message>): State
      reads this, sessions
    {
      State(sessions.At(key).messages, prompt, sent)
    }

    method ForceCompression(key: string)
      modifies sessions
      ensures sessions.sessions
              == if key in old(sessions.sessions)
                 then var session := old(sessions.At(key));
                      old(sessions.sessions)[key := session.(messages := Compressed(session.messages))]
                 else old(sessions.sessions)
    {
      var history := sessions.GetHistory(key);
      if |history| <= 4 {
        assert key in sessions.sessions ==> sessions.sessions == sessions.sessions[key := sessions.At(key)];
        return;
      }
      var conversation := history[1..|history| - 1];
      var mid := |conversation| / 2;
      var keptConversation := conversation[mid..];
      var newHistory := [history[0]];
      newHistory := newHistory + [CompressionNote(mid)];
      newHistory := newHistory + keptConversation;
      newHistory := newHistory + [history[|history| - 1]];
      assert newHistory == Compressed(history);
      sessions.SetHistory(key, newHistory);
    }

    method Chat(messages: seq<Message>) returns (reply: Reply)
      modifies this`sent
      ensures reply == env.chat(|old(sent)|) && sent == old(sent) + [messages]
    {
      reply := env.chat(|sent|);
      sent := sent + [messages];
    }

    /** The retry loop around one model call. */
    method ChatWithRetries(key: string, prompt: seq<Message>) returns (messages: seq<Message>, reply: Reply)
      requires key in sessions.sessions
      modifies this`sent, sessions
      ensures OnlyMessages(old(sessions.sessions), sessions.sessions, key)
      ensures (Model(key, messages), reply)
              == Ask(env, old(Model(key, prompt)), old(sessions.At(key)).summary, 0)
    {
      messages := prompt;
      var retry := 0;
      ghost var summary := sessions.At(key).summary;
      while true
        invariant 0 <= retry <= MAX_RETRIES
        invariant OnlyMessages(old(sessions.sessions), sessions.sessions, key)
        invariant Ask(env, Model(key, messages), summary, retry) == Ask(env, old(Model(key, prompt)), summary, 0)
        decreases MAX_RETRIES - retry
      {
        ghost var s := Model(key, messages);
        reply := Chat(messages);
        if reply == ContextError && retry < MAX_RETRIES {
          AskAgain(env, s, summary, retry);
          ForceCompression(key);
          var newHistory := sessions.GetHistory(key);
          var newSummary := sessions.GetSummary(key);
          messages := BuildMessages(newHistory, env.systemPrompt, newSummary, "");
          retry := retry + 1;
          assert Model(key, messages) == Squeezed(env, Sent(s), summary);
        } else {
          return;
        }
      }
    }

    /** Recording the assistant message, then running each call and recording its result. */
    method RunTools(key: string, prompt: seq<Message>, content: string, calls: seq<ToolCall>)
        returns (messages: seq<Message>)
      requires key in sessions.sessions
      modifies sessions
      ensures OnlyMessages(old(sessions.sessions), sessions.sessions, key)
      ensures messages == prompt + Block(env, |sent|, content, calls)
      ensures sessions.At(key).messages == old(sessions.At(key)).messages + Block(env, |sent|, content, calls)
    {
      var assistantMsg := Message(Assistant, content, calls, "");
      messages := prompt + [assistantMsg];
      sessions.AddFullMessage(key, assistantMsg);
      ghost var block := Block(env, |sent|, content, calls);
      var i := 0;
      while i < |calls|
        invariant 0 <= i <= |calls|
        invariant OnlyMessages(old(sessions.sessions), sessions.sessions, key)
        invariant messages == prompt + block[..i + 1]
        invariant sessions.At(key).messages == old(sessions.At(key)).messages + block[..i + 1]
      {
        var toolResultMsg := Message(Tool, env.tool(|sent|, i), [], calls[i].id);
        assert block[..i + 2] == block[..i + 1] + [toolResultMsg];
        messages := messages + [toolResultMsg];
        sessions.AddFullMessage(key, toolResultMsg);
        i := i + 1;
      }
      assert block[..|calls| + 1] == block;
    }

    /** One pass of the loop: a model call, then either an end or the tools it asked for. `rest` is what is to come. */
    method RunIteration(key: string, prompt: seq<Message>, ghost left: nat)
        returns (messages: seq<Message>, ended: Option<Outcome>, ghost rest: Iterated)
      requires key in sessions.sessions && left > 0
      modifies this`sent, sessions
      ensures OnlyMessages(old(sessions.sessions), sessions.sessions, key)
      ensures Iterate(env, old(Model(key, prompt)), old(sessions.At(key)).summary, left) == Counted(1, rest)
      ensures ended.Some? ==> rest == Iterated(Model(key, messages), 0, ended.value)
      ensures ended.None? ==> rest == Iterate(env, Model(key, messages), old(sessions.At(key)).summary, left - 1)
    {
      var asked, reply := ChatWithRetries(key, prompt);
      ghost var s := Model(key, asked);
      IterateOnce(env, old(Model(key, prompt)), s, reply, old(sessions.At(key)).summary, left);
      if !reply.Answer? {
        return asked, Some(Failed), Iterated(s, 0, Failed);
      }
      if |reply.calls| == 0 {
        return asked, Some(Done(reply.content)), Iterated(s, 0, Done(reply.content));
      }
      messages := RunTools(key, asked, reply.content, reply.calls);
      assert Model(key, messages) == WithBlock(env, s, reply.content, reply.calls);
      ended := None;
      rest := Iterate(env, Model(key, messages), old(sessions.At(key)).summary, left - 1);
    }

    method RunLLMIteration(key: string, prompt: seq<Message>) returns (outcome: Outcome, iteration: nat)
      requires key in sessions.sessions
      modifies this`sent, sessions
      ensures OnlyMessages(old(sessions.sessions), sessions.sessions, key)
      ensures var r := Iterate(env, old(Model(key, prompt)), old(sessions.At(key)).summary, maxIterations);
              && r.outcome == outcome && r.iterations == iteration
              && r.state.history == sessions.At(key).messages && r.state.sent == sent
    {
      var messages := prompt;
      iteration := 0;
      ghost var summary := sessions.At(key).summary;
      ghost var whole := Iterate(env, Model(key, prompt), summary, maxIterations);
      ghost var left, rest := maxIterations, whole;
      var ended: Option<Outcome> := None;
      while iteration < maxIterations && ended.None?
        invariant iteration + left == maxIterations
        invariant OnlyMessages(old(sessions.sessions), sessions.sessions, key)
        invariant sessions.At(key).summary == summary
        invariant whole == Counted(iteration, rest)
        invariant ended.None? ==> rest == Iterate(env, Model(key, messages), summary, left)
        invariant ended.Some? ==> rest == Iterated(Model(key, messages), 0, ended.value)
        decreases maxIterations - iteration
      {
        messages, ended, rest := RunIteration(key, messages, left);
        iteration := iteration + 1;
        left := left - 1;
      }
      if ended.Some? {
        outcome := ended.value;
      } else {
        IterateNone(env, Model(key, messages), summary);
        outcome := Done("");
      }
    }

    method RunAgentLoop(key: string, opts: TurnOptions) returns (outcome: Outcome)
      modifies this`sent, sessions
      ensures OnlyMessages(old(sessions.sessions), sessions.sessions, key)
      ensures (sessions.At(key), sent, outcome) == Turn(env, old(sessions.At(key)), old(sent), opts, maxIterations)
    {
      var history: seq<Message> := [];
      var summary := "";
      if !opts.noHistory {
        history := sessions.GetHistory(key);
        summary := sessions.GetSummary(key);
      }
      var messages := BuildMessages(history, env.systemPrompt, summary, opts.userMessage);
      sessions.AddMessage(key, User, opts.userMessage);
      var iteration;
      outcome, iteration := RunLLMIteration(key, messages);
      if outcome == Failed {
        return;
      }
      var finalContent := outcome.content;
      if finalContent == "" {
        finalContent := opts.defaultResponse;
      }
      sessions.AddMessage(key, Assistant, finalContent);
      return Done(finalContent);
    }

    /** All but the last messages are summarized, in two parts when there are many, and then dropped. */
    method SummarizeSession(key: string, llm: Summarizer, contextWindow: nat)
      modifies sessions
      ensures sessions.sessions
              == if key in old(sessions.sessions)
                 then var session := old(sessions.At(key));
                      old(sessions.sessions)[key := Summarized(session, SummaryOf(llm, contextWindow, session))]
                 else old(sessions.sessions)
    {
      var history := sessions.GetHistory(key);
      var summary := sessions.GetSummary(key);
      if |history| <= KEEP_AFTER_SUMMARY {
        assert key in sessions.sessions ==> sessions.sessions == sessions.sessions[key := sessions.At(key)];
        return;
      }
      var finalSummary := SummarizeOlder(llm, contextWindow, history[..|history| - KEEP_AFTER_SUMMARY], summary);
      if finalSummary != "" {
        sessions.SetSummary(key, finalSummary);
        sessions.TruncateHistory(key, KEEP_AFTER_SUMMARY);
      } else {
        assert sessions.sessions == sessions.sessions[key := sessions.At(key)];
      }
    }

    /** One batch, or two halves merged when there are many messages. */
    method SummarizeOlder(llm: Summarizer, contextWindow: nat, toSummarize: seq<Message>, summary: string)
      returns (finalSummary: string)
      ensures finalSummary == SummaryText(llm, contextWindow, toSummarize, summary)
    {
      var validMessages, omitted := SelectMessages(toSummarize, contextWindow / 2);
      if |validMessages| == 0 {
        return "";
      }
      if |validMessages| > 10 {
        var mid := |validMessages| / 2;
        var s1, s2 := llm.batch(validMessages[..mid], ""), llm.batch(validMessages[mid..], "");
        var merged := llm.merge(s1, s2);
        finalSummary := if merged.Some? then merged.value else s1 + " " + s2;
      } else {
        finalSummary := llm.batch(validMessages, summary);
      }
      if omitted && finalSummary != "" {
        finalSummary := finalSummary + OMISSION_NOTE;
      }
    }

    /** What users and the assistant said, without messages too large for the summarizer. */
    method SelectMessages(messages: seq<Message>, maxTokens: nat) returns (valid: seq<Message>, omitted: bool)
      ensures valid == Summarizable(messages, maxTokens) && omitted == AnyOversized(messages, maxTokens)
    {
      valid, omitted := [], false;
      var i := 0;
      while i < |messages|
        invariant 0 <= i <= |messages|
        invariant valid == Summarizable(messages[..i], maxTokens) && omitted == AnyOversized(messages[..i], maxTokens)
      {
        assert messages[..i + 1] == messages[..i] + [messages[i]];
        var m := messages[i];
        if m.role == User || m.role == Assistant {
          if |m.content| / 2 > maxTokens {
            omitted := true;
          } else {
            valid := valid + [m];
          }
        }
        i := i + 1;
      }
      assert messages[..|messages|] == messages;
    }
  }

  lemma IterateOnce(env: Env, s: State, asked: State, reply: Reply, summary: string, left: nat)
    requires left > 0 && (asked, reply) == Ask(env, s, summary, 0)
    ensures Iterate(env, s, summary, left)
            == if !reply.Answer? then Iterated(asked, 1, Failed)
               else if reply.calls == [] then Iterated(asked, 1, Done(reply.content))
               else Counted(1, Iterate(env, WithBlock(env, asked, reply.content, reply.calls), summary, left - 1))
  {
  }

  lemma IterateNone(env: Env, s: State, summary: string)
    ensures Iterate(env, s, summary, 0) == Iterated(s, 0, Done(""))
  {
  }

  // ---------- The loop of subagents ----------

  /** The blocks of the first `n` replies, all of which ask for tools. */
  function ToolBlocks(env: Env, n: nat): seq<Message>
    requires AllAskForTools(env, n)
  {
    if n == 0 then []
    else ToolBlocks(env, n - 1) + Block(env, n, env.chat(n - 1).content, env.chat(n - 1).calls)
  }

  ghost predicate AllAskForTools(env: Env, n: nat) {
    forall i :: 0 <= i < n ==> AsksForTools(env.chat(i))
  }

  predicate AsksForTools(reply: Reply) {
    reply.Answer? && reply.calls != []
  }

  /** No session behind it and no retries: the first reply that asks for no tools, or an error, ends it. */
  method RunToolLoop(env: Env, prompt: seq<Message>, maxIterations: nat)
      returns (outcome: Outcome, iteration: nat, messages: seq<Message>)
    ensures iteration <= maxIterations
    ensures var ended := 0 < iteration && !AsksForTools(env.chat(iteration - 1));
            var asked := if ended then iteration - 1 else iteration;
            && (ended || iteration == maxIterations)
            && AllAskForTools(env, asked)
            && messages == prompt + ToolBlocks(env, asked)
            && outcome == if !ended then Done("")
                          else if env.chat(asked).Answer? then Done(env.chat(asked).content) else Failed
  {
    messages := prompt;
    iteration := 0;
    while iteration < maxIterations
      invariant 0 <= iteration <= maxIterations
      invariant AllAskForTools(env, iteration)
      invariant messages == prompt + ToolBlocks(env, iteration)
    {
      var reply := env.chat(iteration);
      iteration := iteration + 1;
      if !reply.Answer? {
        outcome := Failed;
        return;
      }
      if |reply.calls| == 0 {
        outcome := Done(reply.content);
        return;
      }
      messages := ExecuteCalls(env, messages, iteration, reply.content, reply.calls);
    }
    outcome := Done("");
  }

  method ExecuteCalls(env: Env, prompt: seq<Message>, call: nat, content: string, calls: seq<ToolCall>)
      returns (messages: seq<Message>)
    ensures messages == prompt + Block(env, call, content, calls)
  {
    ghost var block := Block(env, call, content, calls);
    messages := prompt + [Message(Assistant, content, calls, "")];
    var i := 0;
    while i < |calls|
      invariant 0 <= i <= |calls|
      invariant messages == prompt + block[..i + 1]
    {
      assert block[..i + 2] == block[..i + 1] + [Result(env, call, calls, i)];
      messages := messages + [Message(Tool, env.tool(call, i), [], calls[i].id)];
      i := i + 1;
    }
    assert block[..|calls| + 1] == block;
  }
}
