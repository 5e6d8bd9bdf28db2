/**
 * `CommunityBot` (`discord_bot.py`): which Discord messages the bot answers, and how the reply text
 * is cut to the configured length. Sending and editing messages are returned as a list of actions.
 */
module DiscordBot {
  import opened Wrappers
  import opened Text
  import opened Messages
  import opened LocalMemory
  import opened LocalAgentModule
  import opened AgentClientModule
  import Config

  const TruncationMarker: string := "\U{2026} (truncated)"
  const ThinkingText: string := "Processing... \U{1F916}"

  /** `_truncate`: text longer than `limit` keeps `text[:limit - 10]` followed by the marker. */
  function Truncate(text: string, limit: int): (r: string)
    ensures |text| <= limit ==> r == text
    ensures |text| > limit ==> r == PyPrefix(text, limit - 10) + TruncationMarker
  {
    if |text| <= limit then text else PyPrefix(text, limit - 10) + TruncationMarker
  }

  /** The marker is 13 characters and replaces 10, so a cut text is 3 characters over its limit. */
  lemma TruncatedExceedsLimit(text: string, limit: int)
    requires limit >= 10 && |text| > limit
    ensures |Truncate(text, limit)| == limit + 3
    ensures TruncationMarker <= Truncate(text, limit)[limit - 10..]
  {
    assert |TruncationMarker| == 13;
  }

  /** A cut text still begins with the start of the original text. */
  lemma TruncateKeepsStart(text: string, limit: int)
    ensures |text| <= limit ==> Truncate(text, limit) == text
    ensures |text| > limit ==> PyPrefix(text, limit - 10) <= Truncate(text, limit) && PyPrefix(text, limit - 10) <= text
  {
  }

  /** `collect_response` already caps the reply at `max_response_chars`, so `_truncate` never cuts it. */
  lemma TruncateIdentityOnCollected(chunks: seq<string>, maxChars: int)
    requires maxChars >= 0
    ensures var response := PyPrefix(Concat(chunks[..StopIndex(chunks, maxChars)]), maxChars);
      Truncate(response, maxChars) == response
  {
  }

  /** An incoming Discord message, as far as the bot looks at it. */
  datatype IncomingMessage = IncomingMessage(authorIsBot: bool, channelId: int, content: string)

  /** What the bot does in the channel: send the placeholder, then edit it. */
  datatype Action = Send(text: string) | Edit(text: string)

  /** The filter at the top of `on_message`. */
  predicate ShouldHandle(settings: Config.Settings, m: IncomingMessage) {
    !m.authorIsBot && m.channelId == settings.discordChannelId
  }

  /** `str(e)` for the exceptions `collect_response` can raise. */
  function ErrorText(e: ChatError): string {
    match e
    case InvalidConfiguration => "Invalid backend configuration"
    case BackendFailure(msg) => msg
  }

  /** The text the placeholder is edited to. */
  function ReplyText(collected: Result<string, ChatError>, limit: int): string {
    match collected
    case Ok(text) => Truncate(text, limit)
    case Err(e) => "Error contacting AI backend: " + ErrorText(e)
  }

  /** A reply the limit already bounds is shown as it is. */
  lemma ReplyShownWhole(text: string, limit: int)
    requires |text| <= limit
    ensures ReplyText(Ok(text), limit) == text
  {
  }

  class CommunityBot {
    const settings: Config.Settings
    const agentClient: AgentClient

    constructor (settings: Config.Settings, agentClient: AgentClient)
      ensures this.settings == settings && this.agentClient == agentClient
    {
      this.settings := settings;
      this.agentClient := agentClient;
    }

    /** `on_message`: ignored messages cause nothing; a handled one gets the placeholder, then
        `ReplyText` of what `collect_response` returned. */
    method OnMessage(m: IncomingMessage, localReply: seq<string>, agentCoreReply: Result<string, string>)
      returns (actions: seq<Action>, collected: Option<Result<string, ChatError>>)
      modifies if agentClient.agent != null then {agentClient.agent.memory} else {}
      ensures !ShouldHandle(settings, m) ==>
                (actions == [] && collected.None? &&
                 (agentClient.agent != null ==> agentClient.agent.memory.history == old(agentClient.agent.memory.history)))
      ensures ShouldHandle(settings, m) ==>
                collected.Some? && actions == [Send(ThinkingText), Edit(ReplyText(collected.value, settings.maxResponseChars))]
      ensures ShouldHandle(settings, m) && agentClient.RouteOf() == InvalidRoute ==>
                collected == Some(Err(InvalidConfiguration))
      ensures ShouldHandle(settings, m) && agentClient.RouteOf() == AgentCoreRoute ==>
                collected == Some(match agentCoreReply
                                  case Ok(text) => Ok(PyPrefix(text, settings.maxResponseChars))
                                  case Err(e) => Err(BackendFailure(e)))
      ensures ShouldHandle(settings, m) && agentClient.RouteOf() == LocalRoute ==>
                && collected == Some(Ok(PyPrefix(Concat(localReply[..StopIndex(localReply, settings.maxResponseChars)]),
                                                 settings.maxResponseChars)))
                && (settings.maxResponseChars >= 0 ==> |collected.value.value| <= settings.maxResponseChars)
                && var memory := agentClient.agent.memory;
                   var sent := AfterAdd(old(memory.history), Message("user", m.content), memory.maxMessages);
                   memory.history ==
                     if ReachedLimit(localReply, settings.maxResponseChars) then sent
                     else RecordReply(sent, localReply, memory.maxMessages)
      ensures ShouldHandle(settings, m) && agentClient.RouteOf() != LocalRoute && agentClient.agent != null ==>
                agentClient.agent.memory.history == old(agentClient.agent.memory.history)
    {
      if m.authorIsBot {
        return [], None;
      }
      if m.channelId != settings.discordChannelId {
        return [], None;
      }
      actions := [Send(ThinkingText)];
      var response := agentClient.CollectResponse(m.content, settings.maxResponseChars, localReply, agentCoreReply);
      collected := Some(response);
      actions := actions + [Edit(ReplyText(response, settings.maxResponseChars))];
    }
  }
}
