/**
 * The text handling of the AgentCore entry point (`agentcore_app.py`): cutting replies to Discord's
 * size, composing the labelled prompt from the prompt bundle, picking readable text out of knowledge
 * base results, the knowledge base tool's replies and the invocation payload rule.
 * The bundle, the user role and `str.title()` are parameters; the knowledge base and the chat call are inputs.
 */
module AgentCoreApp {
  import opened Wrappers
  import opened Text
  import opened Dicts
  import opened Json
  import opened StringOrder
  import opened PromptLoader

  /** `_truncate_for_discord`: a text over the limit keeps `text[:limit - 3]` and gets `"..."`. */
  function TruncateForDiscord(text: string, limit: int): (r: string)
    ensures |text| <= limit ==> r == text
    ensures |text| > limit ==> r == PyPrefix(text, limit - 3) + "..."
    ensures limit >= 3 ==> |r| <= limit
    ensures limit >= 3 && |text| > limit ==> |r| == limit && r[..limit - 3] == text[..limit - 3]
  {
    if |text| <= limit then text else PyPrefix(text, limit - 3) + "..."
  }

  /** `_PROMPT_USER_ROLE`: the configured role, stripped, falling back to `"user"`. */
  function PromptUserRole(configured: string): (r: string)
    ensures r != ""
    ensures !IsBlank(configured) ==> r == Strip(configured)
    ensures IsBlank(configured) ==> r == "user"
  {
    var role := Strip(if configured != "" then configured else "user");
    if role != "" then role else "user"
  }

  // ---------------------------------------------------------------------------------------------
  // _compose_agentcore_prompt

  /** The label of an extra: underscores become spaces, then stripped; the raw name if nothing is left. */
  function ExtraLabel(name: string): (r: string)
    ensures Strip(ReplaceChar(name, '_', ' ')) != "" ==> r == Strip(ReplaceChar(name, '_', ' '))
    ensures Strip(ReplaceChar(name, '_', ' ')) == "" ==> r == name
  {
    var labelText := Strip(ReplaceChar(name, '_', ' '));
    if labelText != "" then labelText else name
  }

  /** `(extras.get(name) or "").strip()` */
  function ExtraText(extras: Dict<string, string>, name: string): (r: string)
    ensures r == "" <==> IsBlank(GetOr(extras, name, ""))
  {
    Strip(GetOr(extras, name, ""))
  }

  /** The section an extra contributes: none when its text is blank. */
  function ExtraSection(extras: Dict<string, string>, name: string): (r: seq<string>)
    ensures |r| <= 1
    ensures r != [] <==> ExtraText(extras, name) != ""
  {
    if ExtraText(extras, name) == "" then [] else ["[" + ExtraLabel(name) + "]\n" + ExtraText(extras, name)]
  }

  function ExtraSections(extras: Dict<string, string>, names: seq<string>): seq<string> {
    if names == [] then []
    else ExtraSections(extras, names[..|names| - 1]) + ExtraSection(extras, names[|names| - 1])
  }

  /** The optional section `header + text`, present when the context is set and not blank. */
  function ContextSection(header: string, context: Option<string>): (r: seq<string>)
    ensures |r| <= 1
    ensures r != [] <==> context.Some? && !IsBlank(context.value)
    ensures r != [] ==> r[0] == header + Strip(context.value)
  {
    if context.Some? && context.value != "" && Strip(context.value) != "" then
      [header + Strip(context.value)]
    else []
  }

  /** The system instructions and the role primer, each when not blank. */
  function HeadSections(bundle: PromptBundle, roleTitle: string): (r: seq<string>)
    ensures |r| <= 2
  {
    var system := Strip(bundle.system);
    var primer := Strip(bundle.user.GetOr(""));
    (if system != "" then ["[System Instructions]\n" + system] else [])
    + (if primer != "" then ["[" + roleTitle + " Primer]\n" + primer] else [])
  }

  /** The names of the extras, sorted (`sorted(extras)`). */
  function ExtraNames(extras: Dict<string, string>): seq<string> {
    Sort(KeyList(extras))
  }

  /** The sections of the composed prompt, in order: system instructions, the role primer, the extras
      by sorted name, the conversation memory, the relevant knowledge, and the role message. */
  function PromptSections(bundle: PromptBundle, roleTitle: string, userMessage: string,
                          memoryContext: Option<string>, knowledgeContext: Option<string>): seq<string>
  {
    HeadSections(bundle, roleTitle)
    + ExtraSections(bundle.extras, ExtraNames(bundle.extras))
    + ContextSection("[Conversation Memory]\n", memoryContext)
    + ContextSection("[Relevant Knowledge]\n", knowledgeContext)
    + ["[" + roleTitle + " Message]\n" + userMessage]
  }

  /** The loop of `_compose_agentcore_prompt` over the extras, in the given name order. */
  method AppendExtras(head: seq<string>, extras: Dict<string, string>, names: seq<string>) returns (sections: seq<string>)
    ensures sections == head + ExtraSections(extras, names)
  {
    sections := head;
    var i := 0;
    while i < |names|
      invariant 0 <= i <= |names|
      invariant sections == head + ExtraSections(extras, names[..i])
    {
      var name := names[i];
      assert names[..i + 1][..i] == names[..i];
      var content := ExtraText(extras, name);
      if content != "" {
        sections := sections + ["[" + ExtraLabel(name) + "]\n" + content];
      }
      assert ExtraSections(extras, names[..i + 1]) == ExtraSections(extras, names[..i]) + ExtraSection(extras, name);
      i := i + 1;
    }
    assert names[..i] == names;
  }

  /** `_compose_agentcore_prompt`; `roleTitle` is `_PROMPT_USER_ROLE.title()`. */
  method ComposeAgentCorePrompt(bundle: PromptBundle, roleTitle: string, userMessage: string,
                                memoryContext: Option<string>, knowledgeContext: Option<string>)
    returns (prompt: string)
    ensures prompt == Join("\n\n", PromptSections(bundle, roleTitle, userMessage, memoryContext, knowledgeContext))
  {
    var sections: seq<string> := [];
    var systemPrompt := Strip(bundle.system);
    if systemPrompt != "" {
      sections := sections + ["[System Instructions]\n" + systemPrompt];
    }
    var userPrimer := Strip(bundle.user.GetOr(""));
    if userPrimer != "" {
      sections := sections + ["[" + roleTitle + " Primer]\n" + userPrimer];
    }
    assert sections == HeadSections(bundle, roleTitle);
    sections := AppendExtras(sections, bundle.extras, ExtraNames(bundle.extras));
    var body := sections;
    if memoryContext.Some? && memoryContext.value != "" {
      var memoryText := Strip(memoryContext.value);
      if memoryText != "" {
        sections := sections + ["[Conversation Memory]\n" + memoryText];
      }
    }
    assert sections == body + ContextSection("[Conversation Memory]\n", memoryContext);
    var withMemory := sections;
    if knowledgeContext.Some? && knowledgeContext.value != "" {
      var knowledgeText := Strip(knowledgeContext.value);
      if knowledgeText != "" {
        sections := sections + ["[Relevant Knowledge]\n" + knowledgeText];
      }
    }
    assert sections == withMemory + ContextSection("[Relevant Knowledge]\n", knowledgeContext);
    sections := sections + ["[" + roleTitle + " Message]\n" + userMessage];
    prompt := Join("\n\n", sections);
  }

  /** Every extra with a non-blank text contributes its section to the prompt. */
  lemma {:induction false} ExtraIncluded(extras: Dict<string, string>, names: seq<string>, i: nat)
    requires i < |names| && ExtraSection(extras, names[i]) != []
    ensures ExtraSection(extras, names[i])[0] in ExtraSections(extras, names)
  {
    var init := names[..|names| - 1];
    if i < |names| - 1 {
      assert init[i] == names[i];
      ExtraIncluded(extras, init, i);
    }
  }

  /** Every extra section in the prompt is the section of one of the names. */
  lemma {:induction false} ExtraFromName(extras: Dict<string, string>, names: seq<string>, s: string)
    requires s in ExtraSections(extras, names)
    ensures exists i :: 0 <= i < |names| && ExtraSection(extras, names[i]) == [s]
  {
    var init := names[..|names| - 1];
    var e := ExtraSection(extras, names[|names| - 1]);
    if s in ExtraSections(extras, init) {
      ExtraFromName(extras, init, s);
      var i :| 0 <= i < |init| && ExtraSection(extras, init[i]) == [s];
      assert init[i] == names[i];
    } else {
      assert s in e;
      assert e == [s];
    }
  }

  /** The extras are visited in sorted order, and every key of the bundle's extras is visited once. */
  lemma ExtraNamesSorted(extras: Dict<string, string>)
    ensures Sorted(ExtraNames(extras))
    ensures |ExtraNames(extras)| == |extras|
    ensures forall k :: k in ExtraNames(extras) <==> k in Keys(extras)
  {
    var names := ExtraNames(extras);
    assert |names| == |multiset(names)|;
    assert forall k :: k in names <==> k in multiset(names);
    assert forall k :: k in KeyList(extras) <==> k in multiset(KeyList(extras));
  }

  /** The role message always closes the prompt, right after the optional memory and knowledge
      sections, each of which appears at most once. */
  lemma PromptShape(bundle: PromptBundle, roleTitle: string, userMessage: string,
                    memoryContext: Option<string>, knowledgeContext: Option<string>)
    ensures var s := PromptSections(bundle, roleTitle, userMessage, memoryContext, knowledgeContext);
      && var tail := ContextSection("[Conversation Memory]\n", memoryContext) + ContextSection("[Relevant Knowledge]\n", knowledgeContext);
      && |s| >= 1 + |tail| && s[|s| - 1] == "[" + roleTitle + " Message]\n" + userMessage
      && s[|s| - 1 - |tail|..|s| - 1] == tail
  {
    var front := HeadSections(bundle, roleTitle) + ExtraSections(bundle.extras, ExtraNames(bundle.extras));
    var tail := ContextSection("[Conversation Memory]\n", memoryContext) + ContextSection("[Relevant Knowledge]\n", knowledgeContext);
    var last := ["[" + roleTitle + " Message]\n" + userMessage];
    var s := PromptSections(bundle, roleTitle, userMessage, memoryContext, knowledgeContext);
    assert s == front + tail + last;
    assert s[|s| - 1 - |tail|..|s| - 1] == tail;
  }

  // ---------------------------------------------------------------------------------------------
  // _extract_content_from_result

  /** `value.strip()` of a string value that is not blank. */
  function NonBlankText(v: Value): (r: Option<string>)
    ensures r.Some? <==> v.Str? && !IsBlank(v.s)
    ensures r.Some? ==> r.value == Strip(v.s) && r.value != "" && Strip(r.value) == r.value
  {
    if v.Str? && Strip(v.s) != "" then StripIdempotent(v.s); Some(Strip(v.s)) else None
  }

  /** The first of `keys` whose value is a non-blank string. */
  function FirstKeyed(entries: seq<(string, Value)>, keys: seq<string>): (r: Option<string>)
    ensures r.Some? ==> exists k :: k in keys && Get(entries, k).Some? && NonBlankText(Get(entries, k).value) == r
    ensures r.None? <==> forall k :: k in keys ==> Get(entries, k).None? || NonBlankText(Get(entries, k).value).None?
  {
    if keys == [] then None
    else
      var v := Get(entries, keys[0]);
      if v.Some? && NonBlankText(v.value).Some? then NonBlankText(v.value)
      else FirstKeyed(entries, keys[1..])
  }

  /** The first key holding a non-blank string decides: when every earlier key is missing or holds
      no such string, its stripped value is the result. */
  lemma {:induction false} FirstKeyedAt(entries: seq<(string, Value)>, keys: seq<string>, i: nat)
    requires i < |keys| && Get(entries, keys[i]).Some? && NonBlankText(Get(entries, keys[i]).value).Some?
    requires forall j :: 0 <= j < i ==> Get(entries, keys[j]).None? || NonBlankText(Get(entries, keys[j]).value).None?
    ensures FirstKeyed(entries, keys) == NonBlankText(Get(entries, keys[i]).value)
  {
    if i > 0 {
      assert Get(entries, keys[0]).None? || NonBlankText(Get(entries, keys[0]).value).None?;
      assert keys[1..][i - 1] == keys[i];
      assert forall j :: 0 <= j < i - 1 ==> keys[1..][j] == keys[j + 1];
      FirstKeyedAt(entries, keys[1..], i - 1);
    }
  }

  /** The keys tried, in order, before falling back to `results`. */
  const ContentKeys: seq<string> := ["content", "text", "answer"]

  /** `item.get("content") or item.get("text")`, then kept when it is a non-blank string. */
  function Snippet(item: Value): Option<string> {
    if !item.Dict? then None
    else
      var c := Get(item.entries, "content");
      var chosen := if c.Some? && Truthy(c.value) then c else Get(item.entries, "text");
      if chosen.Some? then NonBlankText(chosen.value) else None
  }

  function Snippets(items: seq<Value>): seq<string> {
    if items == [] then []
    else Snippets(items[..|items| - 1]) + (if Snippet(items[|items| - 1]).Some? then [Snippet(items[|items| - 1]).value] else [])
  }

  /** The result of `_extract_content_from_result`. */
  function ExtractContent(result: Value): Option<string> {
    if !Truthy(result) then None
    else if result.Str? then NonBlankText(result)
    else if result.Dict? then
      (if FirstKeyed(result.entries, ContentKeys).Some? then FirstKeyed(result.entries, ContentKeys)
       else
         var results := Get(result.entries, "results");
         if results.Some? && results.value.List? && Snippets(results.value.items) != [] then
           Some(Join("\n\n", Snippets(results.value.items)))
         else None)
    else None
  }

  /** `_extract_content_from_result` */
  method ExtractContentFromResult(result: Value) returns (r: Option<string>)
    ensures r == ExtractContent(result)
  {
    if !Truthy(result) {
      return None;
    }
    if result.Str? {
      var extracted := Strip(result.s);
      return if extracted != "" then Some(extracted) else None;
    }
    if result.Dict? {
      r := FirstContent(result.entries, ContentKeys);
      if r.Some? {
        return;
      }
      var results := Get(result.entries, "results");
      if results.Some? && results.value.List? {
        var snippets := CollectSnippets(results.value.items);
        if snippets != [] {
          return Some(Join("\n\n", snippets));
        }
      }
    }
    r := None;
  }

  /** The loop over the content keys: the first value that is a non-blank string, stripped. */
  method FirstContent(entries: seq<(string, Value)>, keys: seq<string>) returns (r: Option<string>)
    ensures r == FirstKeyed(entries, keys)
  {
    var k := 0;
    while k < |keys|
      invariant 0 <= k <= |keys|
      invariant FirstKeyed(entries, keys[k..]) == FirstKeyed(entries, keys)
    {
      var value := Get(entries, keys[k]);
      assert keys[k..][1..] == keys[k + 1..];
      if value.Some? && value.value.Str? && Strip(value.value.s) != "" {
        return Some(Strip(value.value.s));
      }
      k := k + 1;
    }
    assert keys[k..] == [];
    r := None;
  }

  /** The loop over `results`: the snippet of each item that has one, in order. */
  method CollectSnippets(items: seq<Value>) returns (snippets: seq<string>)
    ensures snippets == Snippets(items)
  {
    snippets := [];
    var idx := 0;
    while idx < |items|
      invariant 0 <= idx <= |items|
      invariant snippets == Snippets(items[..idx])
    {
      assert items[..idx + 1][..idx] == items[..idx];
      var item := items[idx];
      if item.Dict? {
        var content := Get(item.entries, "content");
        var snippet := if content.Some? && Truthy(content.value) then content else Get(item.entries, "text");
        if snippet.Some? && snippet.value.Str? && Strip(snippet.value.s) != "" {
          snippets := snippets + [Strip(snippet.value.s)];
        }
      }
      idx := idx + 1;
    }
    assert items[..idx] == items;
  }

  /** Every collected snippet is stripped and not empty, and there is at most one per item. */
  lemma {:induction false} SnippetsAreClean(items: seq<Value>)
    ensures |Snippets(items)| <= |items|
    ensures forall i :: 0 <= i < |Snippets(items)| ==> Snippets(items)[i] != "" && Strip(Snippets(items)[i]) == Snippets(items)[i]
  {
    if items != [] {
      SnippetsAreClean(items[..|items| - 1]);
    }
  }

  /** The key priority: a non-blank `content` string wins over everything else in the dict. */
  lemma ContentKeyWins(entries: seq<(string, Value)>, s: string)
    requires Get(entries, "content") == Some(Str(s)) && !IsBlank(s)
    ensures ExtractContent(Dict(entries)) == Some(Strip(s))
  {
  }

  /** Without a non-blank `content` string, a non-blank `text` string wins over `answer` and
      `results`. */
  lemma TextKeyWins(entries: seq<(string, Value)>, s: string)
    requires Get(entries, "content").None? || NonBlankText(Get(entries, "content").value).None?
    requires Get(entries, "text") == Some(Str(s)) && !IsBlank(s)
    ensures ExtractContent(Dict(entries)) == Some(Strip(s))
  {
    FirstKeyedAt(entries, ContentKeys, 1);
  }

  /** Without a non-blank `content` or `text` string, a non-blank `answer` string wins over
      `results`. */
  lemma AnswerKeyWins(entries: seq<(string, Value)>, s: string)
    requires Get(entries, "content").None? || NonBlankText(Get(entries, "content").value).None?
    requires Get(entries, "text").None? || NonBlankText(Get(entries, "text").value).None?
    requires Get(entries, "answer") == Some(Str(s)) && !IsBlank(s)
    ensures ExtractContent(Dict(entries)) == Some(Strip(s))
  {
    FirstKeyedAt(entries, ContentKeys, 2);
  }

  /** A string result is returned stripped, or `None` when blank; a falsy result gives `None`. */
  lemma ExtractFromScalars(result: Value)
    ensures !Truthy(result) ==> ExtractContent(result).None?
    ensures result.Str? ==> ExtractContent(result) == (if IsBlank(result.s) then None else Some(Strip(result.s)))
    ensures !result.Str? && !result.Dict? ==> ExtractContent(result).None?
  {
  }

  // ---------------------------------------------------------------------------------------------
  // kb_query_tool

  /** What `query_knowledge_base_via_gateway` returns when it finds something. */
  datatype KbResult = KbResult(content: string, source: Option<string>, raw: Option<Value>)

  /** The tool's reply `{"status": status, "content": [{"text": text}]}`. */
  datatype ToolReply = ToolReply(status: string, text: string)

  const EmptyQueryText: string := "Knowledge base query cannot be empty."
  const NoMatchText: string := "No knowledge base entries matched the query."

  /** The text before the final cut: the stripped content, with the source line in front and the JSON
      metadata block at the end when they apply. `dumps` is `json.dumps(..., indent=2)`, `None` when
      it raises. */
  function KbText(r: KbResult, includeMetadata: bool, dumps: Value -> Option<string>): string {
    var withSource := if r.source.Some? && r.source.value != "" then "Source: " + r.source.value + "\n\n" + Strip(r.content)
                      else Strip(r.content);
    if includeMetadata && r.raw.Some? && r.raw.value != Null && dumps(r.raw.value).Some? then
      Join("\n\n", [withSource, "```json\n" + TruncateForDiscord(dumps(r.raw.value).value, 1500) + "\n```"])
    else withSource
  }

  /** `kb_query_tool`, with the knowledge base's answer for the stripped query as input. */
  method KbQueryTool(query: string, includeMetadata: bool, result: Option<KbResult>, dumps: Value -> Option<string>)
    returns (reply: ToolReply)
    ensures IsBlank(query) ==> reply == ToolReply("error", EmptyQueryText)
    ensures !IsBlank(query) && (result.None? || result.value.content == "") ==> reply == ToolReply("error", NoMatchText)
    ensures !IsBlank(query) && result.Some? && result.value.content != "" ==>
              reply == ToolReply("success", TruncateForDiscord(KbText(result.value, includeMetadata, dumps), 1900))
    ensures reply.status == "success" ==> |reply.text| <= 1900
  {
    var trimmedQuery := Strip(query);
    if trimmedQuery == "" {
      return ToolReply("error", EmptyQueryText);
    }
    if result.None? || result.value.content == "" {
      return ToolReply("error", NoMatchText);
    }
    var kb := result.value;
    var responseText := Strip(kb.content);
    if kb.source.Some? && kb.source.value != "" {
      responseText := "Source: " + kb.source.value + "\n\n" + responseText;
    }
    if includeMetadata && kb.raw.Some? && kb.raw.value != Null {
      var rawJson := dumps(kb.raw.value);
      if rawJson.Some? {
        var metadataSnippet := TruncateForDiscord(rawJson.value, 1500);
        assert [responseText, "```json\n" + metadataSnippet + "\n```"][..1] == [responseText];
        responseText := Join("\n\n", [responseText, "```json\n" + metadataSnippet + "\n```"]);
      }
    }
    responseText := TruncateForDiscord(responseText, 1900);
    reply := ToolReply("success", responseText);
  }

  /** A success reply starts with the source line whenever the cut leaves it whole. */
  lemma KbSourceFirst(r: KbResult, includeMetadata: bool, dumps: Value -> Option<string>)
    requires r.source.Some? && r.source.value != ""
    requires |"Source: " + r.source.value + "\n\n"| <= 1897
    ensures StartsWith(TruncateForDiscord(KbText(r, includeMetadata, dumps), 1900), "Source: " + r.source.value + "\n\n")
  {
    var p := "Source: " + r.source.value + "\n\n";
    var t := KbText(r, includeMetadata, dumps);
    var withSource := p + Strip(r.content);
    if includeMetadata && r.raw.Some? && r.raw.value != Null && dumps(r.raw.value).Some? {
      var block := "```json\n" + TruncateForDiscord(dumps(r.raw.value).value, 1500) + "\n```";
      assert [withSource, block][..1] == [withSource];
      assert Join("\n\n", [withSource]) == withSource;
      assert t == withSource + "\n\n" + block;
    }
    assert p <= t;
    if |t| > 1900 {
      assert t[..1897][..|p|] == p;
    }
  }

  // ---------------------------------------------------------------------------------------------
  // agent_invocation

  /** The arguments `chat_with_agent` is called with. */
  datatype ChatCall = ChatCall(userMessage: Value, sessionId: Value, useKnowledgeBase: Value)

  datatype InvocationReply =
    | InvocationError(error: string)
    | InvocationResult(result: string, sessionId: Value, agentcoreEnhanced: bool)

  const NoMessageText: string :=
    "No prompt or message found in input. Please provide a JSON payload with 'prompt' or 'message' key."

  /** `payload.get(k, default)` */
  function PayloadGet(payload: seq<(string, Value)>, k: string, default: Value): Value {
    GetOr(payload, k, default)
  }

  /** `agent_invocation`: the reply, and the chat call made (`None` when chat is not called).
      `reply` is what `chat_with_agent` returns or the text of what it raised. */
  function AgentInvocation(payload: seq<(string, Value)>, reply: Result<string, string>, servicesAvailable: bool)
    : (r: (InvocationReply, Option<ChatCall>))
    ensures r.1.None? <==> !Truthy(PayloadGet(payload, "prompt", PayloadGet(payload, "message", Str(""))))
    ensures r.1.None? ==> r.0 == InvocationError(NoMessageText)
  {
    var userMessage := PayloadGet(payload, "prompt", PayloadGet(payload, "message", Str("")));
    var sessionId := PayloadGet(payload, "session_id", Null);
    var useKnowledgeBase := PayloadGet(payload, "use_knowledge_base", Bool(true));
    if !Truthy(userMessage) then (InvocationError(NoMessageText), None)
    else
      var call := Some(ChatCall(userMessage, sessionId, useKnowledgeBase));
      match reply
      case Ok(text) => (InvocationResult(text, sessionId, servicesAvailable), call)
      case Err(e) => (InvocationError("Agent processing failed: " + e), call)
  }

  /** A `prompt` key is used even when empty: it hides `message`, and then chat is not called. */
  lemma PromptKeyShadowsMessage(payload: seq<(string, Value)>, reply: Result<string, string>, servicesAvailable: bool)
    requires "prompt" in Keys(payload)
    ensures var (r, call) := AgentInvocation(payload, reply, servicesAvailable);
      && (call.Some? ==> call.value.userMessage == Get(payload, "prompt").value)
      && (Get(payload, "prompt") == Some(Str("")) ==> call.None? && r == InvocationError(NoMessageText))
  {
  }

  /** Without `prompt`, `message` is used, and the defaults are a `None` session and knowledge base on. */
  lemma MessageKeyAndDefaults(payload: seq<(string, Value)>, text: string, reply: Result<string, string>, servicesAvailable: bool)
    requires "prompt" !in Keys(payload) && Get(payload, "message") == Some(Str(text)) && text != ""
    requires "session_id" !in Keys(payload) && "use_knowledge_base" !in Keys(payload)
    ensures AgentInvocation(payload, reply, servicesAvailable).1 == Some(ChatCall(Str(text), Null, Bool(true)))
  {
  }
}
