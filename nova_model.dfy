/**
 * `NovaModel` (`nova_model.py`): the request body sent to Bedrock and the reading of the response
 * stream. The invocation itself is not modelled: the stream is an input, each event either with no
 * `chunk` or with the decoded JSON of its bytes.
 */
module NovaModel {
  import opened Wrappers
  import opened Dicts
  import opened Json

  /** A message as handed to `_format_messages`: `role` and `content` may be missing. */
  datatype RawMessage = RawMessage(role: Option<string>, content: Option<string>)

  /** `{"role": role, "content": [{"text": t} for t in texts]}` */
  datatype NovaMessage = NovaMessage(role: string, texts: seq<string>)

  /** The request body; the floating-point sampling parameters are left out. */
  datatype RequestBody = RequestBody(messages: seq<NovaMessage>, maxNewTokens: int, system: Option<seq<string>>)

  /** One formatted message: a missing role is `"user"`, a missing content `""`, wrapped as one text block. */
  function FormatMessage(m: RawMessage): (r: NovaMessage)
    ensures r.role == (if m.role.Some? then m.role.value else "user")
    ensures r.texts == [if m.content.Some? then m.content.value else ""]
  {
    NovaMessage(m.role.GetOr("user"), [m.content.GetOr("")])
  }

  /** `_format_messages`: one formatted message per input, in order. */
  method FormatMessages(messages: seq<RawMessage>) returns (formatted: seq<NovaMessage>)
    ensures |formatted| == |messages|
    ensures forall i :: 0 <= i < |messages| ==> formatted[i] == FormatMessage(messages[i])
  {
    formatted := [];
    var i := 0;
    while i < |messages|
      invariant 0 <= i <= |messages|
      invariant |formatted| == i
      invariant forall j :: 0 <= j < i ==> formatted[j] == FormatMessage(messages[j])
    {
      formatted := formatted + [FormatMessage(messages[i])];
      i := i + 1;
    }
  }

  /** The body of `generate_streaming`: a `system` entry only for a truthy system prompt. */
  method BuildRequestBody(messages: seq<RawMessage>, maxTokens: int, systemPrompt: Option<string>)
    returns (body: RequestBody)
    ensures |body.messages| == |messages|
    ensures forall i :: 0 <= i < |messages| ==> body.messages[i] == FormatMessage(messages[i])
    ensures body.maxNewTokens == maxTokens
    ensures body.system.Some? <==> systemPrompt.Some? && systemPrompt.value != ""
    ensures body.system.Some? ==> body.system.value == [systemPrompt.value]
  {
    var formatted := FormatMessages(messages);
    body := RequestBody(formatted, maxTokens, None);
    if systemPrompt.Some? && systemPrompt.value != "" {
      body := body.(system := Some([systemPrompt.value]));
    }
  }

  /** A stream event: no `chunk`, or a chunk whose bytes decode to `data`. */
  datatype Event = NoChunk | Chunk(data: Value)

  /** The entries of a JSON object (anything else has none). */
  function Entries(v: Value): seq<(string, Value)> {
    if v.Dict? then v.entries else []
  }

  /** The text a chunk yields: `contentBlockDelta.delta.text`, when it is a string. */
  function EventText(e: Event): Option<string> {
    if e.NoChunk? then None
    else match Get(Entries(e.data), "contentBlockDelta")
      case None => None
      case Some(block) =>
        match Get(Entries(block), "delta")
        case None => None
        case Some(delta) =>
          match Get(Entries(delta), "text")
          case Some(t) => if t.Str? then Some(t.s) else None
          case None => None
  }

  /** The exception a chunk with an `error` entry raises: the `RuntimeError` built from the error's
      `message`, or the `AttributeError` of `.get` when the error is not a dict. */
  function EventError(e: Event): (r: Option<string>)
    ensures r.Some? <==> e.Chunk? && "error" in Keys(Entries(e.data))
    ensures r.Some? && Get(Entries(e.data), "error").value.Dict? ==>
              var err := Get(Entries(e.data), "error").value.entries;
              r.value == "Nova streaming error: " + (if "message" in Keys(err) then PyStr(Get(err, "message").value) else "Unknown error")
    ensures r.Some? && !Get(Entries(e.data), "error").value.Dict? ==>
              r.value == "'" + TypeName(Get(Entries(e.data), "error").value) + "' object has no attribute 'get'"
  {
    if e.NoChunk? then None
    else match Get(Entries(e.data), "error")
      case None => None
      case Some(err) =>
        if !err.Dict? then Some("'" + TypeName(err) + "' object has no attribute 'get'")
        else Some("Nova streaming error: " +
             (match Get(err.entries, "message") case Some(m) => PyStr(m) case None => "Unknown error"))
  }

  /** What the stream produces: the chunks yielded, and the error that ended it, if any. */
  datatype StreamOutcome = StreamOutcome(chunks: seq<string>, error: Option<string>)

  function TextOf(e: Event): seq<string> {
    if EventText(e).Some? then [EventText(e).value] else []
  }

  /** The stream read from the front, for a reading of each event's text and error: a chunk's text is
      yielded before its error is raised. */
  function StreamWith(events: seq<Event>, textOf: Event -> seq<string>, errorOf: Event -> Option<string>): StreamOutcome {
    if events == [] then StreamOutcome([], None)
    else if errorOf(events[0]).Some? then StreamOutcome(textOf(events[0]), errorOf(events[0]))
    else
      var rest := StreamWith(events[1..], textOf, errorOf);
      StreamOutcome(textOf(events[0]) + rest.chunks, rest.error)
  }

  /** What a Nova response stream produces. */
  function Stream(events: seq<Event>): StreamOutcome {
    StreamWith(events, TextOf, EventError)
  }

  /** The texts of all events, in stream order (reference for a stream without errors). */
  function AllTexts(events: seq<Event>, textOf: Event -> seq<string>): seq<string> {
    if events == [] then [] else textOf(events[0]) + AllTexts(events[1..], textOf)
  }

  /** Without error events, the output is the text of every text-carrying chunk, in stream order. */
  lemma {:induction false} StreamWithoutErrors(events: seq<Event>, textOf: Event -> seq<string>, errorOf: Event -> Option<string>)
    requires forall i :: 0 <= i < |events| ==> errorOf(events[i]).None?
    ensures StreamWith(events, textOf, errorOf) == StreamOutcome(AllTexts(events, textOf), None)
  {
    if events != [] {
      StreamWithoutErrors(events[1..], textOf, errorOf);
    }
  }

  /** The first error event ends the stream: the texts up to and including it are yielded, nothing after. */
  lemma {:induction false} StreamStopsAtFirstError(events: seq<Event>, textOf: Event -> seq<string>,
                                                   errorOf: Event -> Option<string>, j: nat)
    requires j < |events| && errorOf(events[j]).Some?
    requires forall i :: 0 <= i < j ==> errorOf(events[i]).None?
    ensures StreamWith(events, textOf, errorOf) == StreamOutcome(AllTexts(events[..j + 1], textOf), errorOf(events[j]))
  {
    if j == 0 {
      assert events[..1][1..] == [];
    } else {
      StreamStopsAtFirstError(events[1..], textOf, errorOf, j - 1);
      assert events[1..][..j] == events[..j + 1][1..];
    }
  }

  /** The texts of a prefix grow by the text of the next event. */
  lemma {:induction false} AllTextsAppend(events: seq<Event>, textOf: Event -> seq<string>, i: nat)
    requires i < |events|
    ensures AllTexts(events[..i + 1], textOf) == AllTexts(events[..i], textOf) + textOf(events[i])
  {
    if i == 0 {
      assert events[..1][1..] == [];
    } else {
      AllTextsAppend(events[1..], textOf, i - 1);
      assert events[..i + 1][1..] == events[1..][..i];
      assert events[..i][1..] == events[1..][..i - 1];
    }
  }

  /** The event loop: each event's text is yielded, and the first error ends it. */
  method ReadEvents(events: seq<Event>, textOf: Event -> seq<string>, errorOf: Event -> Option<string>)
    returns (chunks: seq<string>, error: Option<string>)
    ensures StreamOutcome(chunks, error) == StreamWith(events, textOf, errorOf)
  {
    chunks := [];
    error := None;
    var i := 0;
    while i < |events|
      invariant 0 <= i <= |events|
      invariant forall j :: 0 <= j < i ==> errorOf(events[j]).None?
      invariant chunks == AllTexts(events[..i], textOf)
    {
      AllTextsAppend(events, textOf, i);
      chunks := chunks + textOf(events[i]);
      var err := errorOf(events[i]);
      if err.Some? {
        error := err;
        StreamStopsAtFirstError(events, textOf, errorOf, i);
        return;
      }
      i := i + 1;
    }
    assert events[..i] == events;
    StreamWithoutErrors(events, textOf, errorOf);
  }

  /** `generate_streaming`: the event loop over the response body; a missing body yields nothing. */
  method GenerateStreaming(body: Option<seq<Event>>) returns (chunks: seq<string>, error: Option<string>)
    ensures body.None? ==> chunks == [] && error.None?
    ensures body.Some? ==> StreamOutcome(chunks, error) == Stream(body.value)
  {
    if body.None? {
      return [], None;
    }
    chunks, error := ReadEvents(body.value, TextOf, EventError);
  }
}
