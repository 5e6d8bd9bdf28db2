/**
 * `LocalAgent` (`local_agent/agent.py`): seeds the shared memory with a system message, records the
 * user's message, streams the model's reply unchanged and records the complete reply.
 * The model is not modelled: `chat` takes the chunks the model streams for the history it was given.
 */
module LocalAgentModule {
  import opened Wrappers
  import opened Text
  import opened Messages
  import opened LocalMemory

  const DefaultSystemPrompt: string :=
    "You are a helpful assistant for a Discord community. Provide clear, concise, and friendly responses."

  /** `system_prompt or default_prompt`: a missing or empty prompt falls back to the default text. */
  function PromptOrDefault(p: Option<string>): (r: string)
    ensures r != ""
    ensures p.Some? && p.value != "" ==> r == p.value
    ensures p.None? || p.value == "" ==> r == DefaultSystemPrompt
  {
    if p.Some? && p.value != "" then p.value else DefaultSystemPrompt
  }

  /** The history after `chat` finished streaming `chunks` from history `h`: the complete reply is
      recorded as an assistant message unless it is empty or white space only. */
  function RecordReply(h: seq<Message>, chunks: seq<string>, max: int): seq<Message> {
    if IsBlank(Concat(chunks)) then h else AfterAdd(h, Message("assistant", Concat(chunks)), max)
  }

  /** Seeding an empty memory leaves exactly the one system message (for any limit that is not negative). */
  lemma SeedLeavesOneMessage(prompt: string, max: int)
    requires max >= 0
    ensures AfterAdd([], Message("system", prompt), max) == [Message("system", prompt)]
  {
    var m := Message("system", prompt);
    assert [] + [m] == [m];
    if 1 > max {
      SplitLast([], m);
    }
  }

  /** When there is room, a non-blank reply ends the history as one assistant message holding all chunks;
      a blank reply leaves the history as the model saw it. */
  lemma ReplyRecordedWhole(h: seq<Message>, chunks: seq<string>, max: int)
    requires |h| + 1 <= max
    ensures !IsBlank(Concat(chunks)) ==>
              RecordReply(h, chunks, max) == h + [Message("assistant", Concat(chunks))]
    ensures IsBlank(Concat(chunks)) ==> RecordReply(h, chunks, max) == h
  {
    if !IsBlank(Concat(chunks)) {
      AddWithoutOverflow(h, Message("assistant", Concat(chunks)), max);
    }
  }

  class LocalAgent {
    const memory: ConversationMemory

    /** Adds the system message only when the memory is empty. */
    constructor (memory: ConversationMemory, systemPrompt: Option<string>)
      modifies memory
      ensures this.memory == memory
      ensures old(memory.history) == [] ==>
                memory.history == AfterAdd([], Message("system", PromptOrDefault(systemPrompt)), memory.maxMessages)
      ensures old(memory.history) != [] ==> memory.history == old(memory.history)
    {
      this.memory := memory;
      new;
      if memory.Len() == 0 {
        memory.AddMessage("system", PromptOrDefault(systemPrompt));
      }
    }

    /** The part of `chat` that runs before the first chunk: record the user message and take the
        history the model is given. */
    method BeginChat(userMessage: string) returns (sent: seq<Message>)
      modifies memory
      ensures sent == AfterAdd(old(memory.history), Message("user", userMessage), memory.maxMessages)
      ensures memory.history == sent
    {
      memory.AddMessage("user", userMessage);
      sent := memory.GetHistory();
    }

    /** The part of `chat` that runs once the model's stream is exhausted: record the complete reply. */
    method FinishChat(responseChunks: seq<string>)
      modifies memory
      ensures memory.history == RecordReply(old(memory.history), responseChunks, memory.maxMessages)
    {
      var completeResponse := Concat(responseChunks);
      if Strip(completeResponse) != "" {
        memory.AddMessage("assistant", completeResponse);
      }
    }

    /** `chat`, consumed to the end: `sent` is the history handed to the model, `chunks` what the
        caller receives. */
    method Chat(userMessage: string, modelReply: seq<string>) returns (chunks: seq<string>, sent: seq<Message>)
      modifies memory
      ensures sent == AfterAdd(old(memory.history), Message("user", userMessage), memory.maxMessages)
      ensures chunks == modelReply
      ensures memory.history == RecordReply(sent, modelReply, memory.maxMessages)
    {
      sent := BeginChat(userMessage);
      var responseChunks: seq<string> := [];
      chunks := [];
      var i := 0;
      while i < |modelReply|
        invariant 0 <= i <= |modelReply|
        invariant responseChunks == modelReply[..i] && chunks == modelReply[..i]
      {
        responseChunks := responseChunks + [modelReply[i]];
        chunks := chunks + [modelReply[i]];
        i := i + 1;
      }
      assert responseChunks == modelReply;
      FinishChat(responseChunks);
    }

    /** `chat_complete`: the concatenation of everything `chat` yields. */
    method ChatComplete(userMessage: string, modelReply: seq<string>) returns (r: string)
      modifies memory
      ensures r == Concat(modelReply)
      ensures memory.history ==
                RecordReply(AfterAdd(old(memory.history), Message("user", userMessage), memory.maxMessages),
                            modelReply, memory.maxMessages)
    {
      var yielded, _ := Chat(userMessage, modelReply);
      var parts: seq<string> := [];
      var i := 0;
      while i < |yielded|
        invariant 0 <= i <= |yielded|
        invariant parts == yielded[..i]
      {
        parts := parts + [yielded[i]];
        i := i + 1;
      }
      assert parts == yielded;
      r := Concat(parts);
    }

    /** `clear_memory`: empties the memory and seeds it with one system message. */
    method ClearMemory(systemPrompt: Option<string>)
      modifies memory
      ensures memory.history == AfterAdd([], Message("system", PromptOrDefault(systemPrompt)), memory.maxMessages)
      ensures memory.maxMessages >= 0 ==> |memory.history| == 1
    {
      memory.Clear();
      memory.AddMessage("system", PromptOrDefault(systemPrompt));
      if memory.maxMessages >= 0 {
        SeedLeavesOneMessage(PromptOrDefault(systemPrompt), memory.maxMessages);
      }
    }

    /** `get_memory_size` */
    function GetMemorySize(): (n: nat)
      reads this, memory
      ensures n == |memory.history|
      ensures memory.WithinLimit() && memory.maxMessages >= 1 ==> n <= memory.maxMessages
    {
      memory.Len()
    }
  }
}
