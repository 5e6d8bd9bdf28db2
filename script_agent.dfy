/**
 * The script agent (`source_agents/agents/script.py`): it runs a Python script and turns the JSON the
 * script prints into documents. Running the script is not modelled: its exit code and output are
 * inputs, `json.loads` is a parameter (`None` when it raises `JSONDecodeError`), and `uuid4()` is a
 * parameter giving the text of the fresh id generated for the item at each index.
 */
module ScriptAgentModule {
  import opened Wrappers
  import opened Text
  import opened Dicts
  import opened Json
  import opened Documents
  import opened SourceAgents

  /** The constructor: `script_args or []`. */
  function NewScriptAgent(agentId: string, scriptPath: string, category: string, scriptArgs: Option<seq<string>>): (a: Agent)
    ensures a.ScriptAgent? && a.agentId == agentId && a.scriptPath == scriptPath && a.category == category
    ensures a.scriptArgs == if scriptArgs.Some? then scriptArgs.value else []
  {
    ScriptAgent(agentId, scriptPath, category, if scriptArgs.Some? && scriptArgs.value != [] then scriptArgs.value else [])
  }

  /** What the finished script process gives back. */
  datatype ScriptOutput = ScriptOutput(returnCode: int, stdout: string)

  /** `item.get(k)` when it is a string; other values are read as absent. */
  function StrField(item: seq<(string, Value)>, k: string): (r: Option<string>)
    ensures r.Some? <==> Get(item, k).Some? && Get(item, k).value.Str?
    ensures r.Some? ==> Get(item, k) == Some(Str(r.value))
  {
    var v := Get(item, k);
    if v.Some? && v.value.Str? then Some(v.value.s) else None
  }

  /** The document made from the item at index `i` of the script's output. */
  function ItemDocument(agentId: string, category: string, item: seq<(string, Value)>, i: nat,
                        uuid: nat -> string, now: Timestamp): (d: Document)
    ensures d.sourceType == "script" && d.timestamp == now && d.tags == [] && d.author.None?
    ensures d.content == StrField(item, "content").GetOr("")
    ensures d.sourceId == if StrField(item, "id").Some? then StrField(item, "id").value else agentId + "_" + uuid(i)
    ensures d.title == StrField(item, "title")
    ensures d.category == StrField(item, "category").GetOr(category)
    ensures Get(item, "metadata").None? ==> d.metadata == []
    ensures Get(item, "metadata").Some? && Get(item, "metadata").value.Dict? ==>
              d.metadata == Get(item, "metadata").value.entries
  {
    var metadata := Get(item, "metadata");
    Document(
      StrField(item, "content").GetOr(""),
      "script",
      StrField(item, "id").GetOr(agentId + "_" + uuid(i)),
      StrField(item, "title"),
      None,
      now,
      [],
      StrField(item, "category").GetOr(category),
      if metadata.Some? && metadata.value.Dict? then metadata.value.entries else [])
  }

  /** What `for item in data` walks over: a single object counts as a one-element list, a string is
      walked character by character, and any other value cannot be iterated. */
  function ItemsOf(data: Value): (r: Result<seq<Value>, string>)
    ensures data.Dict? ==> r == Ok([data])
    ensures data.List? ==> r == Ok(data.items)
  {
    match data
    case Dict(_) => Ok([data])
    case List(items) => Ok(items)
    case Str(s) => Ok(seq(|s|, i requires 0 <= i < |s| => Str([s[i]])))
    case _ => Err("'" + TypeName(data) + "' object is not iterable")
  }

  /** The documents of the items, or the error raised by the first item that is not a dict. */
  function ItemDocuments(agentId: string, category: string, items: seq<Value>, uuid: nat -> string, now: Timestamp)
    : Result<seq<Document>, string>
  {
    if items == [] then Ok([])
    else
      var last := |items| - 1;
      match ItemDocuments(agentId, category, items[..last], uuid, now)
      case Err(e) => Err(e)
      case Ok(docs) =>
        if items[last].Dict? then Ok(docs + [ItemDocument(agentId, category, items[last].entries, last, uuid, now)])
        else Err("'" + TypeName(items[last]) + "' object has no attribute 'get'")
  }

  /** The outcome of `collect` for the script's output: its documents, or the text of the exception
      that escapes it. */
  function CollectOutcome(agent: Agent, out: ScriptOutput, loads: string -> Option<Value>, uuid: nat -> string, now: Timestamp)
    : Result<seq<Document>, string>
  {
    if out.returnCode != 0 then Ok([])
    else if Strip(out.stdout) == "" then Ok([])
    else
      match loads(out.stdout)
      case None => Ok([])
      case Some(data) =>
        match ItemsOf(data)
        case Err(e) => Err(e)
        case Ok(items) => ItemDocuments(agent.agentId, agent.category, items, uuid, now)
  }

  /** A failing script, blank output and output that is not JSON all give no documents. */
  lemma NothingCollected(agent: Agent, out: ScriptOutput, loads: string -> Option<Value>, uuid: nat -> string, now: Timestamp)
    requires out.returnCode != 0 || IsBlank(out.stdout) || loads(out.stdout).None?
    ensures CollectOutcome(agent, out, loads, uuid, now) == Ok([])
  {
  }

  /** When every item is a dict there is one document per item, in order. */
  lemma {:induction false} OneDocumentPerItem(agentId: string, category: string, items: seq<Value>, uuid: nat -> string, now: Timestamp)
    requires forall i :: 0 <= i < |items| ==> items[i].Dict?
    ensures ItemDocuments(agentId, category, items, uuid, now).Ok?
    ensures var docs := ItemDocuments(agentId, category, items, uuid, now).value;
      && |docs| == |items|
      && forall i :: 0 <= i < |items| ==> docs[i] == ItemDocument(agentId, category, items[i].entries, i, uuid, now)
  {
    if items != [] {
      var last := |items| - 1;
      OneDocumentPerItem(agentId, category, items[..last], uuid, now);
    }
  }

  /** An item that is not a dict makes `collect` raise instead of returning documents. */
  lemma {:induction false} NonDictItemRaises(agentId: string, category: string, items: seq<Value>, uuid: nat -> string,
                                             now: Timestamp, k: nat)
    requires k < |items| && !items[k].Dict?
    ensures ItemDocuments(agentId, category, items, uuid, now).Err?
  {
    var last := |items| - 1;
    if k < last {
      NonDictItemRaises(agentId, category, items[..last], uuid, now, k);
    }
  }

  /** A single JSON object as output becomes exactly one document. */
  lemma SingleObjectOneDocument(agent: Agent, out: ScriptOutput, loads: string -> Option<Value>, uuid: nat -> string,
                                now: Timestamp, entries: seq<(string, Value)>)
    requires out.returnCode == 0 && !IsBlank(out.stdout) && loads(out.stdout) == Some(Dict(entries))
    ensures CollectOutcome(agent, out, loads, uuid, now) == Ok([ItemDocument(agent.agentId, agent.category, entries, 0, uuid, now)])
  {
    OneDocumentPerItem(agent.agentId, agent.category, [Dict(entries)], uuid, now);
    var docs := ItemDocuments(agent.agentId, agent.category, [Dict(entries)], uuid, now).value;
    assert docs == [docs[0]];
  }

  /** `collect`, once the process has finished. */
  method Collect(agent: Agent, out: ScriptOutput, loads: string -> Option<Value>, uuid: nat -> string, now: Timestamp)
    returns (r: Result<seq<Document>, string>)
    ensures r == CollectOutcome(agent, out, loads, uuid, now)
  {
    if out.returnCode != 0 {
      return Ok([]);
    }
    var output := out.stdout;
    if Strip(output) == "" {
      return Ok([]);
    }
    var parsed := loads(output);
    if parsed.None? {
      return Ok([]);
    }
    var data := ItemsOf(parsed.value);
    if data.Err? {
      return Err(data.error);
    }
    var items := data.value;
    var documents: seq<Document> := [];
    var i := 0;
    while i < |items|
      invariant 0 <= i <= |items|
      invariant ItemDocuments(agent.agentId, agent.category, items[..i], uuid, now) == Ok(documents)
    {
      assert items[..i + 1][..i] == items[..i];
      var item := items[i];
      if !item.Dict? {
        r := Err("'" + TypeName(item) + "' object has no attribute 'get'");
        assert ItemDocuments(agent.agentId, agent.category, items[..i + 1], uuid, now) == r;
        ItemErrorPersists(agent.agentId, agent.category, items, uuid, now, i + 1, r.error);
        return;
      }
      documents := documents + [ItemDocument(agent.agentId, agent.category, item.entries, i, uuid, now)];
      i := i + 1;
    }
    assert items[..i] == items;
    r := Ok(documents);
  }

  /** Once an item raised, the later items do not change the outcome. */
  lemma {:induction false} ItemErrorPersists(agentId: string, category: string, items: seq<Value>, uuid: nat -> string,
                                             now: Timestamp, n: nat, e: string)
    requires n <= |items| && ItemDocuments(agentId, category, items[..n], uuid, now) == Err(e)
    ensures ItemDocuments(agentId, category, items, uuid, now) == Err(e)
    decreases |items| - n
  {
    if n == |items| {
      assert items[..n] == items;
    } else {
      assert items[..n + 1][..n] == items[..n];
      ItemErrorPersists(agentId, category, items, uuid, now, n + 1, e);
    }
  }

  /** What the file system says about the script path. */
  datatype ScriptFile = ScriptFile(found: bool, isFile: bool, readable: bool)

  /** `health_check`: the first failing check is reported. */
  function HealthCheck(f: ScriptFile): (r: Dict<string, Value>)
    ensures Get(r, "healthy") == Some(Bool(f.found && f.isFile && f.readable))
    ensures !f.found ==> Get(r, "error") == Some(Str("Script not found"))
    ensures f.found && !f.isFile ==> Get(r, "error") == Some(Str("Script path is not a file"))
    ensures f.found && f.isFile && !f.readable ==> Get(r, "error") == Some(Str("Script is not readable"))
    ensures f.found && f.isFile && f.readable ==> r == [("healthy", Bool(true))]
  {
    if !f.found then [("healthy", Bool(false)), ("error", Str("Script not found"))]
    else if !f.isFile then [("healthy", Bool(false)), ("error", Str("Script path is not a file"))]
    else if !f.readable then [("healthy", Bool(false)), ("error", Str("Script is not readable"))]
    else [("healthy", Bool(true))]
  }
}
