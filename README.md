# Community bot core, modelled in Dafny

This project models the bookkeeping at the core of a Discord community bot. The bot answers members' messages. The answer comes either from a local Ollama-backed agent framework or from an AWS AgentCore / Bedrock Nova backend fed by a knowledge base. A subsystem of *source agents* collects documents for that knowledge base.

The model covers three areas:

- **Conversation memory and response bounding.**
  - The local agent's bounded history keeps system messages and drops the oldest other messages.
  - The Nova agent keeps a role-blind sliding window.
  - The local agent seeds, records and clears messages.
  - The agent client collects streamed chunks up to a character limit.
  - The two truncators: the AgentCore one and the Discord bot's own.
- **Prompt and knowledge-base text handling.**
  - AgentCore prompt composition from a prompt bundle.
  - Content extraction from loosely shaped knowledge-base results.
  - The knowledge-base tool's reply rules.
  - The AgentCore entrypoint's payload rule.
  - Prompt bundles read from a profile directory, with the settings override and the per-(root, profile) cache.
  - Validation of the settings taken from the environment.
  - Nova request bodies and stream handling.
- **The source-agent subsystem.**
  - Document S3 keys and Bedrock records.
  - The agent registry, whose two dicts stay in step.
  - Batch upload that skips failures.
  - The scheduler's per-agent outcome rules and its `running` flag.
  - `${VAR}` substitution and agent creation from the YAML configuration, with enabled-agent counting.
  - The script and database agents' mapping of output to documents.

Python values are modelled explicitly:

- A Python dict is an association list (`Dicts`). Assignment replaces an entry in place, a new key goes at the end, and `{**a, **b}` merges in that order.
- Loosely typed JSON/YAML values are a `Value` datatype (`Json`), with Python truthiness and `str()`.
- `str.strip` uses Python's whitespace set (`Text`).

Mutable objects are classes whose methods change their fields:

- the two conversation memories;
- the local agent and the agent client;
- the Discord bot;
- the prompt cache;
- the agent registry and the scheduler.

Loops become methods proved against specification functions. Everything else is functions and lemmas.

Outside the program, these are inputs to the model:

- the Ollama and Nova streams;
- knowledge-base results;
- the file system of prompt profiles;
- the environment;
- script exit codes and output;
- database rows;
- which uploads fail;
- the health and collection results of agents;
- the parsed configuration file.

These library calls are function parameters:

- `json.loads` / `json.dumps`;
- `str.title()`;
- `int()` parsing;
- `Path.resolve`;
- `uuid4()`.

A script item's document takes the item's own `category`, falling back to the agent's, and the item's own `metadata` (see `src/community_bot/source_agents/agents/script.py:85-94`).

## Model

| member | source | states |
|---|---|---|
| LocalMemory.SplitLast | src/community_bot/local_agent/memory.py:35-36 | Appending one message extends exactly one of the two partitions (system / non-system) by that message. |
| LocalMemory.PartitionAppend | src/community_bot/local_agent/memory.py:35-36 | The system and non-system partitions of a concatenation are the concatenations of the partitions. |
| LocalMemory.PartitionSize | src/community_bot/local_agent/memory.py:35-36 | The two partitions together have as many messages as the history. |
| LocalMemory.SystemOnlyShape | src/community_bot/local_agent/memory.py:35-36 | The system partition holds only system messages, and the other partition holds none. |
| LocalMemory.PartitionOfSystem | src/community_bot/local_agent/memory.py:35-36 | A history of only system messages is its own system partition, and its non-system partition is empty. |
| LocalMemory.PartitionOfNonSystem | src/community_bot/local_agent/memory.py:35-36 | A history without system messages is its own non-system partition, and its system partition is empty. |
| LocalMemory.PartitionOfSystemTail | src/community_bot/local_agent/memory.py:41-45 | A tail of one partition is still wholly within that partition. |
| LocalMemory.AddWithoutOverflow | src/community_bot/local_agent/memory.py:27-33 | Without overflow, `add_message` appends the message at the end and changes nothing else. |
| LocalMemory.AddRespectsLimit | src/community_bot/local_agent/memory.py:32-45 | For a limit of at least 1, the history never exceeds the limit, and after an overflow its length is exactly the limit. |
| LocalMemory.AddWithZeroLimit | src/community_bot/local_agent/memory.py:39-45 | With limit 0, the `[-0:]` slice keeps every system message. |
| LocalMemory.AddOverflowKeepsRecent | src/community_bot/local_agent/memory.py:35-42 | On overflow with room left after the system messages, the history becomes all system messages in order, then the most recent non-system messages filling the limit exactly. |
| LocalMemory.AddOverflowSystemsFill | src/community_bot/local_agent/memory.py:43-45 | When system messages alone fill the limit, only the last `max` system messages survive. Every non-system message is dropped, including a just-added one. |
| LocalMemory.AddPartitions | src/community_bot/local_agent/memory.py:27-45 | The partitions after `add_message`, in each of the three cases (no overflow, room left, system messages fill the limit). |
| LocalMemory.AddKeepsOrderWithinClass | src/community_bot/local_agent/memory.py:35-45 | Trimming keeps a suffix of each partition, so the relative order within each class is preserved. |
| LocalMemory.AddKeepsNewSystemMessage | src/community_bot/local_agent/memory.py:35-45 | A newly added system message is always retained, as the last system message. |
| LocalMemory.SystemOnlyInList | src/community_bot/local_agent/memory.py:35 | Every message of the system partition is in the history. |
| LocalMemory.AddKeepsSomeSystemMessage | src/community_bot/local_agent/memory.py:32-45 | With a limit of at least 1, a history holding a system message still holds one after `add_message`. |
| LocalMemory.AddAllKeepsSystemWithinLimit | src/community_bot/local_agent/memory.py:20-45 | For any sequence of additions to a seeded history within the limit, the history stays within the limit and keeps a system message. |
| LocalMemory.LastMessagesAreFinal | src/community_bot/local_agent/memory.py:59-68 | `get_last_messages(count)` is the final `min(count, len)` messages for `count > 0`, and empty otherwise. |
| LocalMemory.ConversationMemory.constructor | src/community_bot/local_agent/memory.py:11-18 | A new memory is empty with the given limit. |
| LocalMemory.ConversationMemory.AddMessage | src/community_bot/local_agent/memory.py:20-45 | The new history is the append-then-trim of the old one, and holds no more than a limit of at least one. |
| LocalMemory.ConversationMemory.GetHistory | src/community_bot/local_agent/memory.py:47-53 | Returns a copy equal to the history. |
| LocalMemory.ConversationMemory.Clear | src/community_bot/local_agent/memory.py:55-57 | Empties the history. |
| LocalMemory.ConversationMemory.GetLastMessages | src/community_bot/local_agent/memory.py:59-68 | Returns the last messages, always a suffix of the history. |
| LocalMemory.ConversationMemory.Len | src/community_bot/local_agent/memory.py:70-72 | The number of messages in the history, never more than a limit of at least one. |
| LocalAgentModule.PromptOrDefault | src/community_bot/local_agent/agent.py:31-35 | `system_prompt or default`: the given prompt when non-empty, else the default text, and never empty. |
| LocalAgentModule.SeedLeavesOneMessage | src/community_bot/local_agent/agent.py:29-36 | Seeding an empty memory leaves exactly the one system message. |
| LocalAgentModule.ReplyRecordedWhole | src/community_bot/local_agent/agent.py:59-62 | The assistant message is the concatenation of all chunks, appended only when it is not blank. |
| LocalAgentModule.LocalAgent.constructor | src/community_bot/local_agent/agent.py:18-36 | Adds the system message iff memory was empty; otherwise memory is untouched. |
| LocalAgentModule.LocalAgent.BeginChat | src/community_bot/local_agent/agent.py:47-51 | Records the user message and returns the resulting history, the one the model is given. |
| LocalAgentModule.LocalAgent.FinishChat | src/community_bot/local_agent/agent.py:59-62 | Records the joined response when it is not blank. |
| LocalAgentModule.LocalAgent.Chat | src/community_bot/local_agent/agent.py:38-62 | Sends the history with the user message, yields the model's chunks unchanged and in order, then records the reply. |
| LocalAgentModule.LocalAgent.ChatComplete | src/community_bot/local_agent/agent.py:64-76 | Returns the concatenation of everything `chat` yields, with the same memory effect. |
| LocalAgentModule.LocalAgent.ClearMemory | src/community_bot/local_agent/agent.py:78-90 | Memory becomes just the seeded system message, so its size is 1 for a non-negative limit. |
| LocalAgentModule.LocalAgent.GetMemorySize | src/community_bot/local_agent/agent.py:92-94 | The number of messages in memory, never more than a limit of at least one. |
| NovaAgent.WindowKeepsLast | src/community_bot/nova_agent.py:22-29 | For a limit of at least 1, the window is the last `min(len, max)` messages. |
| NovaAgent.NewMessageLast | src/community_bot/nova_agent.py:24-28 | The newly added message is always last, and the window is non-empty. |
| NovaAgent.RoleBlindEviction | src/community_bot/nova_agent.py:27-28 | The Nova window evicts a system message where the local memory would keep it. |
| NovaAgent.ConversationMemory.constructor | src/community_bot/nova_agent.py:18-20 | A new window is empty with the given limit. |
| NovaAgent.ConversationMemory.AddMessage | src/community_bot/nova_agent.py:22-29 | The messages become the window of the old ones plus the new message, no more than a limit of at least one. |
| NovaAgent.ConversationMemory.GetContext | src/community_bot/nova_agent.py:31-33 | Returns a copy equal to the messages. |
| NovaAgent.ConversationMemory.Clear | src/community_bot/nova_agent.py:35-38 | Empties the messages. |
| NovaAgent.SectionsNotEmpty | src/community_bot/nova_agent.py:112-129 | Every section of the system prompt is non-empty. |
| NovaAgent.SystemFirstThenOverride | src/community_bot/nova_agent.py:112-131 | For any bundle, a non-empty system text is the first section and a non-empty override the second, so the prompt starts with the system text, a blank line and the override. A bundle with only a system text gives that text. |
| NovaAgent.NovaAgent.constructor | src/community_bot/nova_agent.py:44-70 | Keeps the settings and bundle, with a fresh empty memory bounded by `memory_max_messages`. |
| NovaAgent.NovaAgent.BuildSystemPrompt | src/community_bot/nova_agent.py:106-131 | The system prompt is the blank-line join of the non-empty sections, in order: system, override, user context, extras in dict order. |
| NovaAgent.AppendExtras | src/community_bot/nova_agent.py:126-129 | The loop adds one `key:\ntext` section per extra, in dict order, after the earlier sections. |
| NovaAgent.NovaAgent.Chat | src/community_bot/nova_agent.py:72-104 | Records the user message before streaming. After the stream it records the full reply, even an empty one; a stream error leaves only the user message recorded. |
| NovaAgent.NovaAgent.ClearMemory | src/community_bot/nova_agent.py:133-135 | Empties the memory. |
| NovaAgent.NovaAgent.GetMemorySize | src/community_bot/nova_agent.py:137-139 | The number of messages in memory, never more than a limit of at least one. |
| AgentClientModule.StopIndex | src/community_bot/agent_client.py:109-117 | The number of chunks read never exceeds the number of chunks. |
| AgentClientModule.FirstReach | src/community_bot/agent_client.py:109-117 | The search for the first chunk reaching the limit stays within the chunks. |
| AgentClientModule.FirstReachIsFirst | src/community_bot/agent_client.py:111-117 | Reading stops exactly at the first chunk whose running total reaches the limit. |
| AgentClientModule.StopIsFirstReach | src/community_bot/agent_client.py:111-117 | No chunk after the first one reaching `max_chars` is consumed, and every earlier prefix is below the limit. |
| AgentClientModule.BelowLimitKeepsAll | src/community_bot/agent_client.py:109-119 | If all chunks total less than `max_chars`, the result is their full concatenation. |
| AgentClientModule.CollectChunks | src/community_bot/agent_client.py:104-121 | The collected text is the cut of the chunks read. It has at most `max_chars` characters and is a prefix of the concatenation. |
| AgentClientModule.AgentClient.constructor | src/community_bot/agent_client.py:16-54 | Keeps the settings and the local agent, if any. |
| AgentClientModule.AgentClient.CollectResponse | src/community_bot/agent_client.py:56-83 | The mode check: a local agent is used only in `ollama` mode, AgentCore in `agentcore` mode, and anything else raises. The local memory is updated as the agent's `chat` does, unless reading stopped early. |
| AgentClientModule.AgentClient.ClearMemory | src/community_bot/agent_client.py:85-92 | Clears the local agent's memory only in `ollama` mode with a local agent. |
| AgentClientModule.AgentClient.GetMemorySize | src/community_bot/agent_client.py:94-101 | In `ollama` mode with a local agent, the number of messages in that agent's memory; otherwise 0. |
| AgentClientModule.CreateAgentClient | src/community_bot/agent_client.py:16-54 | Only `ollama` and `agentcore` are accepted; another mode raises `ValueError` with its text. In `ollama` mode the client gets a fresh seeded memory. |
| AgentCoreApp.TruncateForDiscord | src/community_bot/agentcore_app.py:96-101 | Unchanged within the limit. Otherwise the text is `text[:limit-3] + "..."`, of length exactly `limit` for `limit >= 3`. |
| AgentCoreApp.PromptUserRole | src/community_bot/agentcore_app.py:74 | The configured role stripped, or exactly `user` when it is empty or all whitespace; never empty. |
| AgentCoreApp.ExtraLabel | src/community_bot/agentcore_app.py:134 | The name with `_` replaced by spaces and stripped, or the raw name when that is empty. |
| AgentCoreApp.ExtraText | src/community_bot/agentcore_app.py:131-133 | An extra's text is empty iff its value is blank or missing. |
| AgentCoreApp.ExtraSection | src/community_bot/agentcore_app.py:129-136 | A blank extra gives no section; otherwise exactly one. |
| AgentCoreApp.ContextSection | src/community_bot/agentcore_app.py:138-148 | A memory or knowledge section appears at most once, only for a non-blank context, and holds the context stripped. |
| AgentCoreApp.HeadSections | src/community_bot/agentcore_app.py:116-127 | At most the system and primer sections come first. |
| AgentCoreApp.AppendExtras | src/community_bot/agentcore_app.py:129-136 | The extras loop appends the extra sections in the order of the names. |
| AgentCoreApp.ComposeAgentCorePrompt | src/community_bot/agentcore_app.py:104-155 | The prompt is the blank-line join of the sections in this order: system, primer, extras sorted by name, memory, knowledge, and the message. |
| AgentCoreApp.ExtraIncluded | src/community_bot/agentcore_app.py:129-136 | Every non-blank extra named in the list has its section in the prompt. |
| AgentCoreApp.ExtraFromName | src/community_bot/agentcore_app.py:129-136 | Every extra section comes from a named extra. |
| AgentCoreApp.ExtraNamesSorted | src/community_bot/agentcore_app.py:130 | The extras are visited sorted, each key exactly once. |
| AgentCoreApp.PromptShape | src/community_bot/agentcore_app.py:138-150 | The message section is always last, right after the memory and knowledge sections. |
| AgentCoreApp.NonBlankText | src/community_bot/agentcore_app.py:434-436 | A value yields text iff it is a non-blank string; the text is stripped and non-empty. |
| AgentCoreApp.FirstKeyed | src/community_bot/agentcore_app.py:432-436 | A result is the stripped non-blank string of one of the keys, and there is no result iff no key holds one. |
| AgentCoreApp.FirstKeyedAt | src/community_bot/agentcore_app.py:432-436 | The first key holding a non-blank string decides: when every earlier key is missing or holds none, its stripped value is the result. |
| AgentCoreApp.ExtractContentFromResult | src/community_bot/agentcore_app.py:414-464 | The loops over the content keys and the result items compute the extraction rule. |
| AgentCoreApp.FirstContent | src/community_bot/agentcore_app.py:432-436 | The loop over the content keys returns the first non-blank text, stripped, as the key rule specifies. |
| AgentCoreApp.CollectSnippets | src/community_bot/agentcore_app.py:443-455 | The loop over the result items collects exactly the specified snippets, in item order. |
| AgentCoreApp.SnippetsAreClean | src/community_bot/agentcore_app.py:443-455 | The snippets are stripped and non-empty; whitespace-only entries are ignored. |
| AgentCoreApp.ContentKeyWins | src/community_bot/agentcore_app.py:432-436 | A non-blank `content` string wins over every other key, stripped. |
| AgentCoreApp.TextKeyWins | src/community_bot/agentcore_app.py:432-436 | Without a non-blank `content` string, a non-blank `text` string wins over `answer` and `results`, stripped. |
| AgentCoreApp.AnswerKeyWins | src/community_bot/agentcore_app.py:432-436 | Without a non-blank `content` or `text` string, a non-blank `answer` string wins over `results`, stripped. |
| AgentCoreApp.ExtractFromScalars | src/community_bot/agentcore_app.py:419-426 | Falsy input gives no content. A string gives its stripped form, or nothing when blank. Other non-dict values give nothing. |
| AgentCoreApp.KbQueryTool | src/community_bot/agentcore_app.py:472-560 | A blank query is an error, and so is a missing content. On success the reply has at most 1900 characters. |
| AgentCoreApp.KbSourceFirst | src/community_bot/agentcore_app.py:526-531 | With a source, the reply starts with `Source: X` followed by a blank line, when that line and the blank line fit in the first 1897 characters, which the 1900-character cut keeps. |
| AgentCoreApp.AgentInvocation | src/community_bot/agentcore_app.py:936-964 | An empty message returns the error dict and chat is not called. |
| AgentCoreApp.PromptKeyShadowsMessage | src/community_bot/agentcore_app.py:938 | `prompt`, when present (even empty), is the message. |
| AgentCoreApp.MessageKeyAndDefaults | src/community_bot/agentcore_app.py:938-940 | Without `prompt`, `message` is used; the session defaults to None and knowledge-base use to true. |
| DiscordBot.Truncate | src/community_bot/discord_bot.py:39-41 | Unchanged within the limit; otherwise the first `limit-10` characters plus the marker. |
| DiscordBot.TruncatedExceedsLimit | src/community_bot/discord_bot.py:41 | For `limit >= 10`, a truncated reply has length `limit + 3`, more than the limit. |
| DiscordBot.TruncateKeepsStart | src/community_bot/discord_bot.py:39-41 | A truncated reply starts with the text's first `limit-10` characters. |
| DiscordBot.TruncateIdentityOnCollected | src/community_bot/discord_bot.py:30-37 | Truncation is the identity on text the response collection already cut to `max_response_chars`. |
| DiscordBot.ReplyShownWhole | src/community_bot/discord_bot.py:33-37 | A reply within the limit is shown unchanged. |
| DiscordBot.CommunityBot.constructor | src/community_bot/discord_bot.py:12-17 | Keeps the settings and the agent client. |
| DiscordBot.CommunityBot.OnMessage | src/community_bot/discord_bot.py:22-37 | Messages from bots, or from other channels, are ignored with no effect. Otherwise the bot sends the thinking text, then edits in the reply text of what `collect_response` returned. On the AgentCore route that is the reply capped to `max_response_chars`, or the backend error. On the local route it is the capped join of the chunks read up to the limit, with the user message recorded and the reply recorded only when the stream was read to its end. |
| Config.Getenv | src/community_bot/config.py:43 | A variable reads as set iff the environment has it, with its value. |
| Config.Missing | src/community_bot/config.py:43 | Exactly the required keys that are unset or empty, in the required order. |
| Config.RuntimeErrorIffInvalid | src/community_bot/config.py:40-61 | `load_settings` raises `RuntimeError` iff the environment fails a check. |
| Config.MissingReportedFirst | src/community_bot/config.py:37-45 | Missing required keys are reported first, listed in order. |
| Config.AcceptedModes | src/community_bot/config.py:47-61 | Accepted settings have mode `agentcore` (with region and both ids) or `ollama` (with a model). |
| Config.Defaults | src/community_bot/config.py:63-93 | Defaults: base URL, 1800 characters, 50 messages, `INFO`, profile `default`, and role `user` when unset or empty. |
| Config.BackendCheckOrder | src/community_bot/config.py:47-61 | With the required keys set, the backend checks run in order and the first one that fails decides the message. An unknown mode is reported first. For AgentCore a missing region comes before the missing ids. For Ollama a missing model is reported. |
| Config.LoadSettings | src/community_bot/config.py:37-93 | A missing required variable raises `RuntimeError`, and settings are only returned when none is missing and the backend check passes. An `int()` failure carries the text of one of the three integer variables. |
| PromptLoader.Find | src/community_bot/prompt_loader.py:38-42 | A file is found iff its name is in the listing. |
| PromptLoader.ReadText | src/community_bot/prompt_loader.py:22-28 | A read succeeds iff the file has content. |
| PromptLoader.ExtraKeyIff | src/community_bot/prompt_loader.py:60-71 | A file is an extra with key `k` iff it is named `{profile}.k.md` with `k` non-empty and not `system` or `user`. |
| PromptLoader.ExtraKeyOfName | src/community_bot/prompt_loader.py:60-71 | A file named `{profile}.k.md` with `k` non-empty and not `system` or `user` is the extra `k`. |
| PromptLoader.NameOfExtraKey | src/community_bot/prompt_loader.py:60-71 | Conversely, an extra with key `k` is named `{profile}.k.md`, with `k` non-empty and not `system` or `user`. |
| PromptLoader.LoadFromDisk | src/community_bot/prompt_loader.py:31-81 | The loop over the directory computes the bundle of the profile. |
| PromptLoader.ReadExtras | src/community_bot/prompt_loader.py:59-73 | The loop over the listing computes the extras of the whole listing, or the first read error. |
| PromptLoader.ReadExtra | src/community_bot/prompt_loader.py:60-73 | One listed file: an extra adds its text under its key, any other file is skipped, and a failing read is the error. |
| PromptLoader.ExtrasErrorPersists | src/community_bot/prompt_loader.py:59-73 | A failing read of an extra fails the whole load. |
| PromptLoader.ExtrasKeys | src/community_bot/prompt_loader.py:59-73 | The extras' keys are exactly the suffixes of the extra files. |
| PromptLoader.ExtrasValues | src/community_bot/prompt_loader.py:59-73 | Each extra's value is the content of its file. |
| PromptLoader.DiskOutcomes | src/community_bot/prompt_loader.py:31-57 | A missing directory or system file gives `FileNotFoundError`. The user primer is absent iff its file is, and the system text is the system file's. |
| PromptLoader.ApplyOverride | src/community_bot/prompt_loader.py:99-103 | A non-empty override replaces only the system text. |
| PromptLoader.RepeatLoadIsCached | src/community_bot/prompt_loader.py:84-105 | A repeat load returns the cached bundle, whatever the disk now holds. |
| PromptLoader.RefreshReloads | src/community_bot/prompt_loader.py:90-97 | `refresh` clears the whole cache and reloads from disk. |
| PromptLoader.PromptCache.constructor | src/community_bot/prompt_loader.py:84 | The cache starts empty. |
| PromptLoader.PromptCache.LoadPromptBundle | src/community_bot/prompt_loader.py:90-105 | Returns the loaded bundle and updates the cache as specified. |
| PromptLoader.PromptCache.LoadSystemPrompt | src/community_bot/prompt_loader.py:108-110 | The `system` field of the loaded bundle. |
| PromptLoader.PromptCache.LoadUserPrimer | src/community_bot/prompt_loader.py:113-115 | The `user` field of the loaded bundle. |
| NovaModel.FormatMessage | src/community_bot/nova_model.py:129-135 | A missing role becomes `user`; a missing content becomes `""`, wrapped as one text block. |
| NovaModel.FormatMessages | src/community_bot/nova_model.py:119-137 | Preserves length and order. |
| NovaModel.BuildRequestBody | src/community_bot/nova_model.py:69-80 | The body has a `system` entry iff the system prompt is truthy. |
| NovaModel.EventError | src/community_bot/nova_model.py:107-117 | A chunk raises iff its data has an `error` entry. A dict error gives `Nova streaming error: ` and its `message`, or `Unknown error` without one. An error of another type gives the `AttributeError` text of `.get`, which the handler re-raises. |
| NovaModel.StreamWithoutErrors | src/community_bot/nova_model.py:92-104 | For any reading of texts and errors from the events, a stream without errors yields the texts in stream order. |
| NovaModel.StreamStopsAtFirstError | src/community_bot/nova_model.py:92-110 | For any reading of texts and errors, the stream stops with the first error, after the texts up to and including that event. |
| NovaModel.AllTextsAppend | src/community_bot/nova_model.py:92-104 | The texts of a longer prefix of the events are those of the shorter prefix followed by the next event's texts. |
| NovaModel.GenerateStreaming | src/community_bot/nova_model.py:82-117 | The event loop computes the specified stream outcome; a missing body yields nothing. |
| NovaModel.ReadEvents | src/community_bot/nova_model.py:92-110 | The loop over the events computes the specified stream outcome: the texts in order, then the first error. |
| Documents.NewDocument | src/community_bot/source_agents/document.py:12-27 | The field defaults: no title or author, no tags, category `general`, empty metadata. |
| Documents.SafeId | src/community_bot/source_agents/document.py:32 | The same length as the id, with `/` and `\` replaced by `_` and nothing else changed. |
| Documents.ToS3Key | src/community_bot/source_agents/document.py:29-33 | The key starts with `category/` and ends with `/safe_id.json`. |
| Documents.KeyFileName | src/community_bot/source_agents/document.py:33 | The last path segment is exactly the safe id plus `.json`. |
| Documents.BaseMetadata | src/community_bot/source_agents/document.py:38-45 | Exactly the six base keys, each once, with the document's source type, id, title (`""` when absent), ISO timestamp, comma-joined tags and category. |
| Documents.ToBedrockFormat | src/community_bot/source_agents/document.py:35-47 | Copies the content; the metadata keys are the base keys plus the document's own. |
| Documents.BedrockMetadata | src/community_bot/source_agents/document.py:46 | User metadata overrides base keys of the same name. |
| Documents.BedrockBaseFields | src/community_bot/source_agents/document.py:37-47 | Each base field's value when not overridden: `title or ""`, the timestamp, comma-joined tags (`""` when empty). |
| SourceAgents.AgentType | src/community_bot/source_agents/agents/script.py:45-47 | A script agent's type is `script`, a database agent's `database` (database.py:60-62). |
| SourceAgents.GetMetadata | src/community_bot/source_agents/base.py:34-40 | `agent_id`, `agent_type` and version `1.0.0`. |
| Registry.RegisterKeepsSynced | src/community_bot/source_agents/registry.py:17-30 | After `register`, the agent and schedule are stored under the id and the two dicts stay in step. Re-registering keeps the set of ids. |
| Dicts.DistinctGet | src/community_bot/source_agents/registry.py:41-43 | A helper for association lists, used here for the registry's `get_agent` and also by the documents and the scheduler. In a list with distinct keys, each entry is found under its own key. |
| Registry.StoredUnderOwnId | src/community_bot/source_agents/registry.py:41-43 | An agent is stored under its own id. |
| Registry.UnregisterKeepsSynced | src/community_bot/source_agents/registry.py:32-39 | `unregister` removes the id from both dicts. |
| Registry.Listing | src/community_bot/source_agents/registry.py:45-53 | A listing entry has the agent's metadata plus its schedule. |
| Registry.ListingAll | src/community_bot/source_agents/registry.py:45-53 | One entry per agent, in registration order. |
| Registry.ListingSchedules | src/community_bot/source_agents/registry.py:45-53 | Each entry carries its agent's id and schedule. |
| Registry.AgentRegistry.constructor | src/community_bot/source_agents/registry.py:12-15 | Both dicts start empty. |
| Registry.AgentRegistry.Register | src/community_bot/source_agents/registry.py:17-30 | Stores the agent and schedule under the id and keeps the invariant. |
| Registry.AgentRegistry.Unregister | src/community_bot/source_agents/registry.py:32-39 | Returns true and removes the id from both dicts iff present; otherwise nothing changes. |
| Registry.AgentRegistry.GetAgent | src/community_bot/source_agents/registry.py:41-43 | The agent stored under the id, or none when unregistered. |
| Registry.AgentRegistry.ListAgents | src/community_bot/source_agents/registry.py:45-53 | One listing per agent, in registration order, with the keys `agent_id`, `agent_type`, `version` and `schedule`. In a synced registry each carries its agent's id and registered schedule. |
| Uploader.NewS3Uploader | src/community_bot/source_agents/uploader.py:19-25 | Raises `ImportError` with its text iff boto3 is missing. |
| Uploader.UploadDocument | src/community_bot/source_agents/uploader.py:27-53 | A successful upload returns the document's `to_s3_key()`. |
| Uploader.SucceededShape | src/community_bot/source_agents/uploader.py:58-63 | The succeeding indices are increasing and are exactly the non-failing ones. |
| Uploader.SucceededAll | src/community_bot/source_agents/uploader.py:58-63 | With no failure every index succeeds. |
| Uploader.UploadedKeysOfSucceeded | src/community_bot/source_agents/uploader.py:55-64 | The keys are those of the documents that uploaded, in document order. |
| Uploader.UploadedKeysBounds | src/community_bot/source_agents/uploader.py:55-64 | A failed upload is skipped, so there are never more keys than documents. When all uploads succeed there is one key per document. |
| Uploader.UploadBatch | src/community_bot/source_agents/uploader.py:55-64 | The loop computes the skip-on-failure keys. |
| Scheduler.ErrorText | src/community_bot/source_agents/scheduler.py:35-74 | A result carries an error iff it failed. |
| Scheduler.RunUnknownRaises | src/community_bot/source_agents/scheduler.py:22-26 | `run_agent` on an unknown id raises `ValueError`; a known id yields a result for it. |
| Scheduler.UnhealthySkipsCollect | src/community_bot/source_agents/scheduler.py:33-41 | An unhealthy check, including a missing `healthy`, fails the run with `Health check failed`, and collect is not called. |
| Scheduler.CompletedCounts | src/community_bot/source_agents/scheduler.py:43-62 | On success: documents collected = len(docs), uploaded <= collected, 0 when there are no docs, and all when none fails. |
| Scheduler.RaisedCarriesError | src/community_bot/source_agents/scheduler.py:65-74 | An exception from the health check or from collect fails the run with its text. |
| Scheduler.RunAll | src/community_bot/source_agents/scheduler.py:76-92 | One result per registered agent, in registry order. |
| Scheduler.RunAllIsRunAgent | src/community_bot/source_agents/scheduler.py:76-92 | Each entry is that agent's `run_agent` result. |
| Scheduler.AgentScheduler.constructor | src/community_bot/source_agents/scheduler.py:15-20 | Not running, no loop task. |
| Scheduler.AgentScheduler.RunAgent | src/community_bot/source_agents/scheduler.py:22-74 | Computes the run outcome. |
| Scheduler.AgentScheduler.RunAllAgents | src/community_bot/source_agents/scheduler.py:76-92 | The loop computes the results of all agents. |
| Scheduler.AgentScheduler.Start | src/community_bot/source_agents/scheduler.py:111-119 | A no-op when already running; otherwise sets `running` and starts one loop. |
| Scheduler.AgentScheduler.Stop | src/community_bot/source_agents/scheduler.py:121-133 | A no-op when not running; otherwise clears `running`. |
| ScriptAgentModule.NewScriptAgent | src/community_bot/source_agents/agents/script.py:19-39 | `script_args or []`. |
| ScriptAgentModule.StrField | src/community_bot/source_agents/agents/script.py:86-93 | An item's string field, when present. |
| ScriptAgentModule.ItemDocument | src/community_bot/source_agents/agents/script.py:86-94 | `source_type` `script`. The item's content, id, title, category and dict `metadata` are taken over. Where one is missing, the default applies: content `""`, the id `agent_id_<fresh id>`, no title, the agent's category, no metadata. |
| ScriptAgentModule.ItemsOf | src/community_bot/source_agents/agents/script.py:80-85 | A single object is a one-element list. |
| ScriptAgentModule.NothingCollected | src/community_bot/source_agents/agents/script.py:64-102 | A non-zero exit, blank output and undecodable JSON each yield no documents. |
| ScriptAgentModule.OneDocumentPerItem | src/community_bot/source_agents/agents/script.py:85-94 | One document per item, in order. |
| ScriptAgentModule.NonDictItemRaises | src/community_bot/source_agents/agents/script.py:85-94 | An item that is not a dict makes `collect` raise. |
| ScriptAgentModule.SingleObjectOneDocument | src/community_bot/source_agents/agents/script.py:80-94 | A single JSON object gives exactly one document. |
| ScriptAgentModule.Collect | src/community_bot/source_agents/agents/script.py:49-102 | The collect steps compute the specified outcome. |
| ScriptAgentModule.ItemErrorPersists | src/community_bot/source_agents/agents/script.py:85-97 | After an item raised, later items do not matter. |
| ScriptAgentModule.HealthCheck | src/community_bot/source_agents/agents/script.py:104-116 | Tests existence, then is-file, then readability, and reports the first failure. |
| DatabaseAgentModule.NewDatabaseAgent | src/community_bot/source_agents/agents/database.py:42-53 | Raises `ImportError` iff asyncpg is missing. |
| DatabaseAgentModule.SelectEntries | src/community_bot/source_agents/agents/database.py:76-77 | The selected columns are exactly the listed ones the row has, with the row's values. |
| DatabaseAgentModule.SelectOrder | src/community_bot/source_agents/agents/database.py:77 | They come in list order. |
| DatabaseAgentModule.ContentDict | src/community_bot/source_agents/agents/database.py:76-79 | A `None` or empty column list means the whole row. |
| DatabaseAgentModule.RowDocument | src/community_bot/source_agents/agents/database.py:76-98 | The source id is `agent_id_<row id>` (`_unknown` when the column is absent). The title is set iff the title column is given and present. The metadata is the whole row. |
| DatabaseAgentModule.Collect | src/community_bot/source_agents/agents/database.py:64-105 | One document per row, in order; a fetch error escapes. |
| DatabaseAgentModule.HealthCheck | src/community_bot/source_agents/agents/database.py:107-114 | Healthy iff the connection succeeds, else reports the error. |
| AgentConfig.PlaceholderTest | src/community_bot/source_agents/config_loader.py:117 | A string starts with `${` and ends with `}` iff it is at least three characters framed that way. |
| AgentConfig.ReplaceEnvVars | src/community_bot/source_agents/config_loader.py:113-129 | A placeholder becomes the variable's value, or stays unchanged when the variable is unset. Other strings and non-containers are unchanged. Dicts keep their keys and lists their length. |
| AgentConfig.ReplaceInside | src/community_bot/source_agents/config_loader.py:122-126 | Substitution applies element-wise. |
| AgentConfig.NoPlaceholdersUnchanged | src/community_bot/source_agents/config_loader.py:115-129 | Substitution is whole-string only: a value without placeholders is unchanged. |
| AgentConfig.RequiredText | src/community_bot/source_agents/config_loader.py:93-104 | A missing required key raises `KeyError` with the quoted key. |
| AgentConfig.TextList | src/community_bot/source_agents/config_loader.py:98-106 | A list of strings is read element by element. |
| AgentConfig.DatabaseFromConfig | src/community_bot/source_agents/config_loader.py:90-99 | A database agent is created iff asyncpg is available and both `connection_string` and `query` are strings. It carries those two, plus `title_column` and `content_columns` as given. The category defaults to `database` and the id column to `id`. |
| AgentConfig.ScriptFromConfig | src/community_bot/source_agents/config_loader.py:101-107 | A script agent is created iff `script_path` is a string. It carries that path and the given `script_args`, or no arguments when they are absent. The category defaults to `script`. |
| AgentConfig.TypedAgent | src/community_bot/source_agents/config_loader.py:90-110 | Dispatch on the type; an unknown type raises `ValueError` with its text. |
| AgentConfig.CreateAgentFromConfig | src/community_bot/source_agents/config_loader.py:73-110 | A missing `id` or `type` raises `KeyError`. Otherwise the typed agent is built from the substituted config. |
| AgentConfig.CreateDispatch | src/community_bot/source_agents/config_loader.py:90-110 | `database` builds a database agent, `script` a script agent, and any other type raises. |
| AgentConfig.CreateDefaults | src/community_bot/source_agents/config_loader.py:95-106 | For any agent config without `category`, `id_column` or `script_args`, placeholders or not, a created database agent has category `database` and id column `id`, and a created script agent has category `script` and no arguments. |
| AgentConfig.SubstitutedKeys | src/community_bot/source_agents/config_loader.py:121-122 | Substituting placeholders keeps a dict's set of keys. |
| AgentConfig.ScheduleOf | src/community_bot/source_agents/config_loader.py:63 | A string `schedule` is used as given; a missing one defaults to `0 */6 * * *`. |
| AgentConfig.EntryOutcomeOf | src/community_bot/source_agents/config_loader.py:55-68 | An entry registers iff it is an enabled dict (`enabled` defaults to true) whose creation succeeds. A non-dict entry's exception escapes the loader. |
| AgentConfig.Outcomes | src/community_bot/source_agents/config_loader.py:55 | One outcome per entry, in order. |
| AgentConfig.OutcomesBy | src/community_bot/source_agents/config_loader.py:55 | One outcome per entry, in entry order, however the entries are handled. |
| AgentConfig.DisabledSkipped | src/community_bot/source_agents/config_loader.py:57-59 | A disabled entry is skipped. |
| AgentConfig.TraceCounts | src/community_bot/source_agents/config_loader.py:53-70 | The count never exceeds the entries. A skipped entry adds nothing, and an escaping one ends the loop. |
| AgentConfig.TraceAllRegistered | src/community_bot/source_agents/config_loader.py:53-70 | When every entry registers, each is registered in order. |
| AgentConfig.TraceEscapedPersists | src/community_bot/source_agents/config_loader.py:55-68 | After an escape, later entries change nothing. |
| AgentConfig.TraceStep | src/community_bot/source_agents/config_loader.py:55-68 | While nothing has escaped, a skipped entry leaves the trace unchanged, an escaping one ends it, and a registering one appends its agent and schedule. |
| AgentConfig.AfterStep | src/community_bot/source_agents/config_loader.py:64 | Registering one more agent puts the agent and its schedule under its id. |
| AgentConfig.NothingToLoad | src/community_bot/source_agents/config_loader.py:34-51 | No YAML, a missing or unreadable file, or no `agents` key gives 0 and no registration. |
| AgentConfig.AgentEntries | src/community_bot/source_agents/config_loader.py:34-55 | No YAML, a missing or unreadable file or a falsy configuration gives no entries; an `agents` list gives its items, and a missing one no entries. An exception escapes only from a truthy parsed configuration. |
| AgentConfig.LoadAgentsFromConfig | src/community_bot/source_agents/config_loader.py:23-70 | The loop registers the traced agents in order and returns their count. When reaching the entries raises, nothing is counted and the agents and schedules are unchanged. |
| AgentConfig.RegisterEntries | src/community_bot/source_agents/config_loader.py:53-70 | The loop over the entries registers the traced agents in order and returns their count, or nothing when an exception escapes; the registry stays valid. |
| AgentConfig.HandleOutcome | src/community_bot/source_agents/config_loader.py:56-68 | One loop iteration: the trace grows by the entry, and only a registering entry changes the registry. |
| AgentConfig.RegisterNext | src/community_bot/source_agents/config_loader.py:64 | `registry.register` adds one registration to the registry and keeps it valid. |

## Left out

- Discord, Ollama, Bedrock, AgentCore gateway, S3, Postgres and subprocess I/O are not modelled. Their results are inputs. This covers `query_knowledge_base_via_gateway` and its helpers, `chat_with_agent`, `get_agent` and the client singletons, `setup_knowledge_base_integration`, `set_provider`, `main` and `run_agentcore_app`, `OllamaModel.chat`, the boto3 and asyncpg calls, and the syncer.
- Concurrency is not modelled: the scheduler loop, its sleep and the task cancellation. The scheduler keeps only the `running` flag, and a counter of created loop tasks stands for `_task`.
- Clocks, randomness and floating point are not modelled. A timestamp is a year, a month, a day and its ISO text. Scheduler results omit their timestamps and durations; the uuid of an item is a parameter per item index; the Nova temperature and top-p are not modelled.
- `json.loads`, `json.dumps`, `yaml.safe_load`, `str.title()`, `int()` and `Path.resolve` are uninterpreted parameters or inputs; logging is left out.
- PromptLoader.MatchesGlob: the `{profile}.*.md` glob is matched as a literal prefix and suffix, so glob metacharacters inside a profile name are not interpreted.
- PromptLoader.LoadBundle: the `lru_cache` bound of 16 entries is not modelled; the cache is an unbounded map.
- Text.Lower: lower-casing of `BACKEND_MODE` covers ASCII letters only.
- Documents.DatePrefix: assumes `%Y` gives a four-digit zero-padded year.
- ScriptAgentModule.Collect: stdout decoding is not modelled (the output is text).
- Where the source expects a string and the configuration, result or payload holds another kind of value, these read that value as absent: AgentConfig.RequiredText, AgentConfig.TextList, AgentConfig.ScheduleOf and ScriptAgentModule.StrField.
- NovaModel.EventError: chunk data that is not a dict is read as giving no text and no error. In the source, a number, a boolean or `None` makes the `in` test raise `TypeError`. A list or string that contains `contentBlockDelta` or `error` makes the indexing raise `TypeError`.
- NovaModel.EventText: a `contentBlockDelta` or `delta` that is not a dict, or a `text` that is not a string, is read as giving no text. In the source, `.get` on a non-dict raises `AttributeError`, and a non-string `text` is yielded as it is.
- ScriptAgentModule.ItemDocument: a document's metadata is always a dict here, so an item whose `metadata` is present but not a dict gets empty metadata, where `script.py:92` passes that value through unchanged.
- AgentConfig.CreateAgentFromConfig: an `id` that is not a string is treated as missing. An agent config that is not a dict gives a generic error text rather than Python's `TypeError` text.
- AgentConfig.AgentEntries: a configuration whose `agents` part raises gives no count. The text of that exception is not modelled.
- Dicts.Get: a key that occurs twice in an association list is read from its first entry. Python dicts built by `json.loads` or `yaml.safe_load` keep the last value of a repeated key; duplicate keys in parsed input are not modelled.
- Json.Repr: a string is always written between single quotes with nothing escaped. Python switches to double quotes for a string that holds a single quote, and escapes backslashes and control characters, so for such strings this text differs from Python's.
- Exceptions that the source only logs, such as a failing agent creation in the loader, are not modelled beyond being skipped.
- NovaAgent.NovaAgent.constructor: `nova_agent.py:59-64` reads `settings.nova_model_id`, `nova_temperature`, `nova_max_tokens` and `nova_top_p`. The `Settings` of `config.py:11-34` defines none of these, so `NovaAgent.__init__` as written raises `AttributeError` on every call, and no `NovaAgent` can be built. The model's constructor always succeeds and leaves out the Nova model's construction. NovaAgent.NovaAgent.BuildSystemPrompt, NovaAgent.NovaAgent.Chat and NovaAgent.NovaAgent.ClearMemory therefore describe an agent that the source, as written, cannot build.
- AgentCoreApp.KbQueryTool: `max_results` and the tool context only reach I/O or logging and are not modelled. A `json.dumps` that raises is a `dumps` result of `None`.
- `CommunityBot._split_response` and `_generate_thread_name` are not part of this model: the bot's source defines neither.
