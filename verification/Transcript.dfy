/** Conversation messages, and when every tool result stands under the call it answers. */
module Transcript {
  import opened Prelude

  datatype Role = System | User | Assistant | Tool

  datatype ToolCall = ToolCall(id: string, name: string, arguments: string)

  datatype Message = Message(role: Role, content: string, toolCalls: seq<ToolCall>, toolCallId: string)

  function Plain(role: Role, content: string): Message {
    Message(role, content, [], "")
  }

  predicate IsPlain(m: Message) {
    m.role != Tool && m.toolCalls == []
  }

  /** The messages begin with one tool result for each call, in order and with matching ids. */
  predicate Answers(calls: seq<ToolCall>, messages: seq<Message>) {
    && |calls| <= |messages|
    && forall i :: 0 <= i < |calls| ==> messages[i].role == Tool && messages[i].toolCallId == calls[i].id
  }

  /** Each tool result sits, in order, in the block behind the assistant message that called it. */
  predicate Paired(messages: seq<Message>) {
    messages == [] ||
    (&& messages[0].role != Tool
     && Answers(messages[0].toolCalls, messages[1..])
     && Paired(messages[1 + |messages[0].toolCalls|..]))
  }

  /** The history without the tool results it begins with. */
  function Strip(history: seq<Message>): seq<Message> {
    if history != [] && history[0].role == Tool then Strip(history[1..]) else history
  }

  /** A stored history that is paired up to tool results cut off from their call at the front. */
  predicate Sound(history: seq<Message>) {
    Paired(Strip(history))
  }

  // ---------- Pairing under append, truncation and stripping ----------

  /** The first block of a paired transcript: a message and the results of its calls. */
  lemma FirstBlock(messages: seq<Message>) returns (block: seq<Message>, rest: seq<Message>)
    requires messages != [] && Paired(messages)
    ensures messages == block + rest && block != [] && Paired(rest)
    ensures block[0].role != Tool && |block| == 1 + |block[0].toolCalls| && Answers(block[0].toolCalls, block[1..])
  {
    var n := 1 + |messages[0].toolCalls|;
    block, rest := messages[..n], messages[n..];
  }

  lemma BlockThenRest(block: seq<Message>, rest: seq<Message>)
    requires block != [] && block[0].role != Tool
    requires |block| == 1 + |block[0].toolCalls| && Answers(block[0].toolCalls, block[1..]) && Paired(rest)
    ensures Paired(block + rest)
  {
    var all := block + rest;
    assert all[1 + |all[0].toolCalls|..] == rest;
    assert forall i :: 0 <= i < |block| - 1 ==> all[1..][i] == block[1..][i];
  }

  lemma {:induction false} PairedAppend(a: seq<Message>, b: seq<Message>)
    requires Paired(a) && Paired(b)
    ensures Paired(a + b)
    decreases |a|
  {
    if a == [] {
      assert a + b == b;
    } else {
      var block, rest := FirstBlock(a);
      PairedAppend(rest, b);
      BlockThenRest(block, rest + b);
      Regroup(block, rest, b);
    }
  }

  lemma PlainIsPaired(m: Message)
    requires IsPlain(m)
    ensures Paired([m])
  {
    BlockThenRest([m], []);
    assert [m] + [] == [m];
  }

  lemma PlainFirst(m: Message, rest: seq<Message>)
    requires IsPlain(m)
    ensures Paired([m] + rest) <==> Paired(rest)
  {
    assert ([m] + rest)[1 + |m.toolCalls|..] == rest;
  }

  lemma StripIsPaired(messages: seq<Message>)
    requires Paired(messages)
    ensures Strip(messages) == messages && Sound(messages)
  {
  }

  lemma {:induction false} StripTools(tools: seq<Message>, rest: seq<Message>)
    requires forall m <- tools :: m.role == Tool
    ensures Strip(tools + rest) == Strip(rest)
  {
    if tools == [] {
      assert tools + rest == rest;
    } else {
      assert (tools + rest)[1..] == tools[1..] + rest;
      assert forall m <- tools[1..] :: m in tools;
      StripTools(tools[1..], rest);
    }
  }

  /** The tool results at the front, and what follows them. */
  lemma {:induction false} StripSplits(history: seq<Message>) returns (tools: seq<Message>)
    ensures history == tools + Strip(history) && forall m <- tools :: m.role == Tool
  {
    tools := [];
    if history != [] && history[0].role == Tool {
      var rest := StripSplits(history[1..]);
      tools := [history[0]] + rest;
    }
  }

  /** Cutting a paired transcript anywhere leaves a sound history. */
  lemma {:induction false} SuffixOfPairedIsSound(messages: seq<Message>, k: nat)
    requires Paired(messages) && k <= |messages|
    ensures Sound(messages[k..])
    decreases |messages|
  {
    if k == 0 {
      assert messages[0..] == messages;
      StripIsPaired(messages);
    } else {
      var block, rest := FirstBlock(messages);
      if k <= |block| {
        var tools := block[k..];
        assert messages[k..] == tools + rest;
        forall m <- tools ensures m.role == Tool {
          var i :| 0 <= i < |tools| && tools[i] == m;
          assert m == block[1..][k + i - 1];
        }
        StripTools(tools, rest);
        StripIsPaired(rest);
      } else {
        assert messages[k..] == rest[k - |block|..];
        SuffixOfPairedIsSound(rest, k - |block|);
      }
    }
  }

  /** Truncating a sound history leaves it sound. */
  lemma SoundTruncated(history: seq<Message>, k: nat)
    requires Sound(history) && k <= |history|
    ensures Sound(history[k..])
  {
    var tools := StripSplits(history);
    var rest := Strip(history);
    if k <= |tools| {
      assert history[k..] == tools[k..] + rest;
      assert forall m <- tools[k..] :: m in tools;
      StripTools(tools[k..], rest);
      StripIsPaired(rest);
    } else {
      assert history[k..] == rest[k - |tools|..];
      SuffixOfPairedIsSound(rest, k - |tools|);
    }
  }

  /** Appending whole blocks to a sound history leaves it sound. */
  lemma SoundAppend(history: seq<Message>, blocks: seq<Message>)
    requires Sound(history) && Paired(blocks)
    ensures Sound(history + blocks)
  {
    var tools := StripSplits(history);
    var rest := Strip(history);
    PairedAppend(rest, blocks);
    Regroup(tools, rest, blocks);
    StripTools(tools, rest + blocks);
    StripIsPaired(rest + blocks);
  }

  /** A paired transcript that a sound history is the tail of. */
  lemma CompletedBlock(history: seq<Message>) returns (whole: seq<Message>)
    requires Sound(history)
    ensures Paired(whole) && IsSuffix(history, whole)
  {
    var tools := StripSplits(history);
    var calls := seq(|tools|, i requires 0 <= i < |tools| => ToolCall(tools[i].toolCallId, "", ""));
    var block := [Message(Assistant, "", calls, "")] + tools;
    assert block[1..] == tools;
    BlockThenRest(block, Strip(history));
    whole := block + Strip(history);
    assert whole[1..] == history;
  }

  lemma TailIsSound(whole: seq<Message>, history: seq<Message>)
    requires Paired(whole) && IsSuffix(history, whole)
    ensures Sound(history)
  {
    SuffixOfPairedIsSound(whole, |whole| - |history|);
  }

  /** Sound histories are exactly the suffixes of paired transcripts. */
  lemma SoundIffSuffixOfPaired(history: seq<Message>)
    ensures Sound(history) <==> exists whole :: Paired(whole) && IsSuffix(history, whole)
  {
    if Sound(history) {
      var whole := CompletedBlock(history);
    }
    forall whole | Paired(whole) && IsSuffix(history, whole) ensures Sound(history) {
      TailIsSound(whole, history);
    }
  }
}
