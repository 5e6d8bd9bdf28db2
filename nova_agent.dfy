/**
 * `NovaAgent` (`nova_agent.py`): a role-blind sliding window of messages, the system prompt built
 * from the prompt bundle, and the memory updates around one streamed reply.
 */
module NovaAgent {
  import opened Wrappers
  import opened Text
  import opened Messages
  import opened Dicts
  import opened PromptLoader
  import opened NovaModel
  import Config
  import LocalMemory

  /** The list after `add_message` appended to `s`: longer than `max`, only `s[-max:]` is kept. */
  function Window(s: seq<Message>, max: int): seq<Message> {
    if |s| > max then PyTail(s, max) else s
  }

  /** For a limit of at least one, the window is the last `min(max, |s|)` messages. */
  lemma WindowKeepsLast(s: seq<Message>, max: int)
    requires max >= 1
    ensures var r := Window(s, max);
      |r| == (if |s| <= max then |s| else max) && r == s[|s| - |r|..]
  {
  }

  /** The message just added is the last one kept, and for a limit that is not negative it is kept. */
  lemma NewMessageLast(h: seq<Message>, m: Message, max: int)
    ensures var r := Window(h + [m], max); r != [] ==> r[|r| - 1] == m
    ensures max >= 0 ==> Window(h + [m], max) != []
  {
    var s := h + [m];
    var r := Window(s, max);
    if r != [] {
      assert r == s[|s| - |r|..];
      assert r[|r| - 1] == s[|s| - 1];
    }
  }

  /** Eviction ignores roles: with limit 1, a user message pushes the system prompt out, where the
      local agent's memory would keep the system prompt and drop the user message instead. */
  lemma RoleBlindEviction(sys: string, user: string)
    ensures Window([Message("system", sys)] + [Message("user", user)], 1) == [Message("user", user)]
    ensures LocalMemory.AfterAdd([Message("system", sys)], Message("user", user), 1) == [Message("system", sys)]
  {
    var h := [Message("system", sys), Message("user", user)];
    assert [Message("system", sys)] + [Message("user", user)] == h;
    assert h[..1] == [Message("system", sys)];
    assert h[..1][..0] == [];
    assert LocalMemory.SystemOnly(h[..1][..0]) == [];
    assert LocalMemory.SystemOnly(h[..1]) == [Message("system", sys)];
    assert LocalMemory.SystemOnly(h) == [Message("system", sys)];
  }

  /** The Nova agent's `ConversationMemory`. */
  class ConversationMemory {
    var messages: seq<Message>
    const maxMessages: int

    /** The messages never outnumber a limit of at least one. */
    ghost predicate WithinLimit()
      reads this
    {
      maxMessages >= 1 ==> |messages| <= maxMessages
    }

    constructor (maxMessages: int)
      ensures this.maxMessages == maxMessages && messages == []
      ensures WithinLimit()
    {
      this.maxMessages := maxMessages;
      messages := [];
    }

    method AddMessage(role: string, content: string)
      modifies this
      ensures messages == Window(old(messages) + [Message(role, content)], maxMessages)
      ensures WithinLimit()
    {
      if maxMessages >= 1 {
        WindowKeepsLast(messages + [Message(role, content)], maxMessages);
      }
      messages := messages + [Message(role, content)];
      if |messages| > maxMessages {
        messages := PyTail(messages, maxMessages);
      }
    }

    /** `get_context`: a copy of the messages. */
    method GetContext() returns (r: seq<Message>)
      ensures r == messages
    {
      r := messages;
    }

    method Clear()
      modifies this
      ensures messages == []
      ensures WithinLimit()
    {
      messages := [];
    }
  }

  /** The sections `_build_system_prompt` joins, in order: the bundle's system text, the settings
      override, the user primer, then one `key:\nvalue` section per extra in the bundle's order.
      Empty texts contribute no section. */
  function SystemSections(bundle: PromptBundle, systemOverride: Option<string>): seq<string> {
    (if bundle.system != "" then [bundle.system] else [])
    + (if systemOverride.Some? && systemOverride.value != "" then [systemOverride.value] else [])
    + (if bundle.user.Some? && bundle.user.value != "" then ["User context:\n" + bundle.user.value] else [])
    + ExtraSections(bundle.extras)
  }

  function ExtraSections(extras: Dict<string, string>): seq<string> {
    seq(|extras|, i requires 0 <= i < |extras| => extras[i].0 + ":\n" + extras[i].1)
  }

  /** The loop over the extras of `_build_system_prompt`: one `key:\ntext` section each, in order. */
  method AppendExtras(sections: seq<string>, extras: Dict<string, string>) returns (r: seq<string>)
    ensures r == sections + ExtraSections(extras)
  {
    var all := ExtraSections(extras);
    r := sections;
    var i := 0;
    while i < |extras|
      invariant 0 <= i <= |extras|
      invariant r == sections + all[..i]
    {
      assert all[..i + 1] == all[..i] + [extras[i].0 + ":\n" + extras[i].1];
      r := r + [extras[i].0 + ":\n" + extras[i].1];
      i := i + 1;
    }
    assert all[..i] == all;
  }

  /** No section is empty, so the prompt is the `"\n\n"` join of the non-empty texts alone. */
  lemma SectionsNotEmpty(bundle: PromptBundle, systemOverride: Option<string>)
    ensures forall i :: 0 <= i < |SystemSections(bundle, systemOverride)| ==> SystemSections(bundle, systemOverride)[i] != ""
  {
    var x := ExtraSections(bundle.extras);
    forall i | 0 <= i < |x| ensures x[i] != "" {
      assert |x[i]| >= 2;
    }
  }

  /** Joining the first `n` parts gives a prefix of joining them all. */
  lemma {:induction false} JoinPrefix(sep: string, parts: seq<string>, n: nat)
    requires 1 <= n <= |parts|
    ensures Join(sep, parts[..n]) <= Join(sep, parts)
  {
    if n == |parts| {
      assert parts[..n] == parts;
    } else {
      var init := parts[..|parts| - 1];
      assert init[..n] == parts[..n];
      JoinPrefix(sep, init, n);
    }
  }

  /** A non-empty system text comes first; a non-empty override comes right after it, whatever else
      the bundle holds, so the prompt starts with the system text, a blank line and the override. A
      bundle with a system text and nothing else gives that text as the prompt. */
  lemma SystemFirstThenOverride(bundle: PromptBundle, o: string)
    requires bundle.system != ""
    ensures SystemSections(bundle, None)[0] == bundle.system
    ensures o != "" ==> |SystemSections(bundle, Some(o))| >= 2 && SystemSections(bundle, Some(o))[..2] == [bundle.system, o]
    ensures o != "" ==> bundle.system + "\n\n" + o <= Join("\n\n", SystemSections(bundle, Some(o)))
    ensures bundle.user.None? && bundle.extras == [] ==> Join("\n\n", SystemSections(bundle, None)) == bundle.system
  {
    if bundle.user.None? && bundle.extras == [] {
      assert SystemSections(bundle, None) == [bundle.system];
    }
    if o != "" {
      var sections := SystemSections(bundle, Some(o));
      assert sections[..2] == [bundle.system, o];
      JoinPrefix("\n\n", sections, 2);
      assert [bundle.system, o][..1] == [bundle.system];
    }
  }

  class NovaAgent {
    const memory: ConversationMemory
    const bundle: PromptBundle
    const settings: Config.Settings

    /** The memory limit comes from `settings.memory_max_messages`; the Nova model is not modelled. */
    constructor (settings: Config.Settings, bundle: PromptBundle)
      ensures this.settings == settings && this.bundle == bundle
      ensures fresh(memory) && memory.messages == [] && memory.maxMessages == settings.memoryMaxMessages
    {
      this.settings := settings;
      this.bundle := bundle;
      memory := new ConversationMemory(settings.memoryMaxMessages);
    }

    /** `_build_system_prompt` */
    method BuildSystemPrompt() returns (r: string)
      ensures r == Join("\n\n", SystemSections(bundle, settings.systemPrompt))
    {
      var sections: seq<string> := [];
      if bundle.system != "" {
        sections := sections + [bundle.system];
      }
      if settings.systemPrompt.Some? && settings.systemPrompt.value != "" {
        sections := sections + [settings.systemPrompt.value];
      }
      if bundle.user.Some? && bundle.user.value != "" {
        sections := sections + ["User context:\n" + bundle.user.value];
      }
      assert SystemSections(bundle, settings.systemPrompt) == sections + ExtraSections(bundle.extras);
      sections := AppendExtras(sections, bundle.extras);
      r := Join("\n\n", sections);
    }

    /** `chat` with the model's response stream `body` as input: the user message is recorded first
        and `sent` is the context the model gets. The complete reply, even an empty one, is recorded
        afterwards, unless the stream raised `error`. */
    method Chat(userMessage: string, body: Option<seq<Event>>)
      returns (chunks: seq<string>, error: Option<string>, systemPrompt: string, sent: seq<Message>)
      modifies memory
      ensures sent == Window(old(memory.messages) + [Message("user", userMessage)], memory.maxMessages)
      ensures systemPrompt == Join("\n\n", SystemSections(bundle, settings.systemPrompt))
      ensures body.None? ==> chunks == [] && error.None?
      ensures body.Some? ==> StreamOutcome(chunks, error) == Stream(body.value)
      ensures error.None? ==> memory.messages == Window(sent + [Message("assistant", Concat(chunks))], memory.maxMessages)
      ensures error.Some? ==> memory.messages == sent
    {
      memory.AddMessage("user", userMessage);
      systemPrompt := BuildSystemPrompt();
      sent := memory.GetContext();
      chunks, error := GenerateStreaming(body);
      var responseText := "";
      var i := 0;
      while i < |chunks|
        invariant 0 <= i <= |chunks|
        invariant responseText == Concat(chunks[..i])
      {
        assert chunks[..i + 1][..i] == chunks[..i];
        responseText := responseText + chunks[i];
        i := i + 1;
      }
      assert chunks[..i] == chunks;
      if error.None? {
        memory.AddMessage("assistant", responseText);
      }
    }

    method ClearMemory()
      modifies memory
      ensures memory.messages == []
    {
      memory.Clear();
    }

    /** `get_memory_size` */
    function GetMemorySize(): (n: nat)
      reads this, memory
      ensures n == |memory.messages|
      ensures memory.WithinLimit() && memory.maxMessages >= 1 ==> n <= memory.maxMessages
    {
      |memory.messages|
    }
  }
}
