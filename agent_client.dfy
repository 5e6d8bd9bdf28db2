/**
 * `agent_client.py`: the `AgentClient` that routes a chat to the configured backend, and
 * `collect_response`, which reads the streamed chunks until a character limit is reached.
 * The AgentCore reply (`chat_with_agent`) and the Ollama model's stream are inputs.
 */
module AgentClientModule {
  import opened Wrappers
  import opened Text
  import opened Messages
  import opened LocalMemory
  import opened LocalAgentModule
  import Config

  /** The number of chunks `collect_response` reads: up to and including the first one that brings
      the running total to `maxChars` or more, or all of them. */
  function StopIndex(chunks: seq<string>, maxChars: int): (r: nat)
    ensures r <= |chunks|
  {
    FirstReach(chunks, maxChars, 0)
  }

  function FirstReach(chunks: seq<string>, maxChars: int, from: nat): (r: nat)
    requires from <= |chunks|
    ensures from <= r <= |chunks|
    decreases |chunks| - from
  {
    if from == |chunks| then |chunks|
    else if |Concat(chunks[..from + 1])| >= maxChars then from + 1
    else FirstReach(chunks, maxChars, from + 1)
  }

  /** Whether reading stopped at the limit rather than at the end of the stream. */
  predicate ReachedLimit(chunks: seq<string>, maxChars: int) {
    var n := StopIndex(chunks, maxChars);
    n >= 1 && |Concat(chunks[..n])| >= maxChars
  }

  /** `FirstReach` stops at the first chunk that reaches the limit. */
  lemma {:induction false} FirstReachIsFirst(chunks: seq<string>, maxChars: int, from: nat)
    requires from <= |chunks|
    requires forall k :: 1 <= k <= from ==> |Concat(chunks[..k])| < maxChars
    ensures var r := FirstReach(chunks, maxChars, from);
      && (forall k :: 1 <= k < r ==> |Concat(chunks[..k])| < maxChars)
      && (r < |chunks| ==> r >= 1 && |Concat(chunks[..r])| >= maxChars)
    decreases |chunks| - from
  {
    if from < |chunks| && |Concat(chunks[..from + 1])| < maxChars {
      FirstReachIsFirst(chunks, maxChars, from + 1);
    }
  }

  /** Reading stops at the first chunk that brings the total to the limit; no later chunk is read. */
  lemma StopIsFirstReach(chunks: seq<string>, maxChars: int)
    ensures var n := StopIndex(chunks, maxChars);
      && (forall k :: 1 <= k < n ==> |Concat(chunks[..k])| < maxChars)
      && (n < |chunks| ==> n >= 1 && |Concat(chunks[..n])| >= maxChars)
  {
    FirstReachIsFirst(chunks, maxChars, 0);
  }

  /** When all chunks together stay below the limit, every chunk is read and nothing is cut. */
  lemma {:induction false} BelowLimitKeepsAll(chunks: seq<string>, maxChars: int)
    requires |Concat(chunks)| < maxChars
    ensures StopIndex(chunks, maxChars) == |chunks| && !ReachedLimit(chunks, maxChars)
    ensures PyPrefix(Concat(chunks[..StopIndex(chunks, maxChars)]), maxChars) == Concat(chunks)
  {
    StopIsFirstReach(chunks, maxChars);
    var n := StopIndex(chunks, maxChars);
    if n < |chunks| {
      ConcatPrefix(chunks, n);
      assert false;
    }
    assert chunks[..n] == chunks;
  }

  /** The `collect_response` loop over a stream consumed chunk by chunk. */
  method CollectChunks(chunks: seq<string>, maxChars: int) returns (response: string, consumed: nat, reachedLimit: bool)
    ensures consumed == StopIndex(chunks, maxChars)
    ensures reachedLimit == ReachedLimit(chunks, maxChars)
    ensures response == PyPrefix(Concat(chunks[..consumed]), maxChars)
    ensures maxChars >= 0 ==> |response| <= maxChars
    ensures response <= Concat(chunks)
  {
    var parts: seq<string> := [];
    var chunkCount := 0;
    reachedLimit := false;
    while chunkCount < |chunks|
      invariant 0 <= chunkCount <= |chunks|
      invariant parts == chunks[..chunkCount]
      invariant FirstReach(chunks, maxChars, chunkCount) == StopIndex(chunks, maxChars)
      invariant chunkCount >= 1 ==> |Concat(parts)| < maxChars
    {
      ghost var before := chunkCount;
      parts := parts + [chunks[chunkCount]];
      chunkCount := chunkCount + 1;
      assert parts == chunks[..chunkCount];
      var currentLength := |Concat(parts)|;
      if currentLength >= maxChars {
        assert FirstReach(chunks, maxChars, before) == chunkCount;
        reachedLimit := true;
        break;
      }
      assert FirstReach(chunks, maxChars, before) == FirstReach(chunks, maxChars, chunkCount);
    }
    consumed := chunkCount;
    response := PyPrefix(Concat(parts), maxChars);
    ConcatPrefix(chunks, consumed);
  }

  /** Which branch of `AgentClient.chat` a client takes. */
  datatype Route = LocalRoute | AgentCoreRoute | InvalidRoute

  /** The exception a chat raises: `RuntimeError("Invalid backend configuration")`, or whatever the
      AgentCore call raised. */
  datatype ChatError = InvalidConfiguration | BackendFailure(msg: string)

  const ClientDefaultPrompt: string := "You are a helpful Discord community assistant."

  class AgentClient {
    const settings: Config.Settings
    /** The `LocalAgent` of the Ollama backend; `null` stands for the `"agentcore"` marker. */
    const agent: LocalAgent?

    constructor (settings: Config.Settings, agent: LocalAgent?)
      ensures this.settings == settings && this.agent == agent
    {
      this.settings := settings;
      this.agent := agent;
    }

    /** The mode check of `chat`, `clear_memory` and `get_memory_size`. */
    function RouteOf(): Route
      reads this
    {
      if settings.backendMode == "ollama" && agent != null then LocalRoute
      else if settings.backendMode == "agentcore" then AgentCoreRoute
      else InvalidRoute
    }

    /** `chat` consumed by `collect_response`: the stream is read until `maxChars` is reached. When that
        happens the local agent's generator is left suspended at its last `yield`, so the reply is never
        recorded; only a stream read to its end records it. */
    method CollectResponse(userMessage: string, maxChars: int, localReply: seq<string>,
                           agentCoreReply: Result<string, string>) returns (r: Result<string, ChatError>)
      modifies if agent != null then {agent.memory} else {}
      ensures RouteOf() == InvalidRoute ==> r == Err(InvalidConfiguration)
      ensures RouteOf() == AgentCoreRoute ==>
                r == (match agentCoreReply
                      case Ok(text) => Ok(PyPrefix(text, maxChars))
                      case Err(e) => Err(BackendFailure(e)))
      ensures RouteOf() == LocalRoute ==>
                && r == Ok(PyPrefix(Concat(localReply[..StopIndex(localReply, maxChars)]), maxChars))
                && var sent := AfterAdd(old(agent.memory.history), Message("user", userMessage), agent.memory.maxMessages);
                   agent.memory.history ==
                     if ReachedLimit(localReply, maxChars) then sent
                     else RecordReply(sent, localReply, agent.memory.maxMessages)
      ensures RouteOf() != LocalRoute && agent != null ==> agent.memory.history == old(agent.memory.history)
    {
      match RouteOf()
      case InvalidRoute =>
        r := Err(InvalidConfiguration);
      case AgentCoreRoute =>
        if agentCoreReply.Err? {
          r := Err(BackendFailure(agentCoreReply.error));
        } else {
          var response, _, _ := CollectChunks([agentCoreReply.value], maxChars);
          assert [agentCoreReply.value][..1] == [agentCoreReply.value];
          assert [agentCoreReply.value][..1][..0] == [];
          assert Concat([agentCoreReply.value]) == agentCoreReply.value;
          r := Ok(response);
        }
      case LocalRoute =>
        var _ := agent.BeginChat(userMessage);
        var response, consumed, reachedLimit := CollectChunks(localReply, maxChars);
        if !reachedLimit {
          agent.FinishChat(localReply);
        }
        r := Ok(response);
    }

    /** `clear_memory`: only the local agent has a memory; it is reseeded with the default prompt. */
    method ClearMemory()
      modifies if agent != null then {agent.memory} else {}
      ensures RouteOf() == LocalRoute ==>
                agent.memory.history == AfterAdd([], Message("system", DefaultSystemPrompt), agent.memory.maxMessages)
      ensures RouteOf() != LocalRoute && agent != null ==> agent.memory.history == old(agent.memory.history)
    {
      if RouteOf() == LocalRoute {
        agent.ClearMemory(None);
      }
    }

    /** `get_memory_size`: the local agent's memory size, otherwise 0. */
    function GetMemorySize(): (r: nat)
      reads this, if agent != null then {agent, agent.memory} else {}
      ensures RouteOf() != LocalRoute ==> r == 0
      ensures RouteOf() == LocalRoute ==> r == |agent.memory.history|
    {
      if RouteOf() == LocalRoute then agent.GetMemorySize() else 0
    }
  }

  /** `AgentClient.__init__`: an Ollama client gets a fresh memory and a local agent seeded with the
      configured system prompt or the client's default; any mode but the two backends is refused. */
  method CreateAgentClient(settings: Config.Settings) returns (r: Result<AgentClient, string>)
    ensures settings.backendMode != "ollama" && settings.backendMode != "agentcore" ==>
              r == Err("Unknown backend mode: " + settings.backendMode)
    ensures settings.backendMode == "agentcore" ==> r.Ok? && r.value.agent == null
    ensures settings.backendMode == "ollama" ==>
              && r.Ok? && r.value.agent != null && fresh(r.value.agent) && fresh(r.value.agent.memory)
              && r.value.agent.memory.maxMessages == settings.memoryMaxMessages
              && r.value.agent.memory.history ==
                   AfterAdd([], Message("system", PromptOrDefault(Some(
                     if settings.systemPrompt.Some? && settings.systemPrompt.value != "" then settings.systemPrompt.value
                     else ClientDefaultPrompt))), settings.memoryMaxMessages)
    ensures r.Ok? ==> r.value.settings == settings && r.value.RouteOf() != InvalidRoute
  {
    if settings.backendMode == "ollama" {
      var memory := new ConversationMemory(settings.memoryMaxMessages);
      var prompt := if settings.systemPrompt.Some? && settings.systemPrompt.value != "" then settings.systemPrompt.value
                    else ClientDefaultPrompt;
      var agent := new LocalAgent(memory, Some(prompt));
      var client := new AgentClient(settings, agent);
      r := Ok(client);
    } else if settings.backendMode == "agentcore" {
      var client := new AgentClient(settings, null);
      r := Ok(client);
    } else {
      r := Err("Unknown backend mode: " + settings.backendMode);
    }
  }
}
