/**
 * The database agent (`source_agents/agents/database.py`): one document per row of its query. The
 * connection and the query are not modelled: the fetched rows (or the text of what fetching raised)
 * are an input, and `json.dumps(..., indent=2, default=str)` is a parameter.
 */
module DatabaseAgentModule {
  import opened Wrappers
  import opened Dicts
  import opened Json
  import opened Documents
  import opened SourceAgents

  const AsyncpgMissing: string := "asyncpg is required for DatabaseAgent. Install with: pip install asyncpg"

  /** A fetched row, as `dict(row)`. */
  type Row = Dict<string, Value>

  /** The constructor, which raises `ImportError` when asyncpg cannot be imported. */
  function NewDatabaseAgent(asyncpgAvailable: bool, agentId: string, connectionString: string, query: string,
                            category: string, idColumn: string, titleColumn: Option<string>,
                            contentColumns: Option<seq<string>>): (r: Result<Agent, string>)
    ensures r.Ok? <==> asyncpgAvailable
    ensures r.Err? ==> r.error == AsyncpgMissing
    ensures r.Ok? ==> r.value == DatabaseAgent(agentId, connectionString, query, category, idColumn, titleColumn, contentColumns)
  {
    if !asyncpgAvailable then Err(AsyncpgMissing)
    else Ok(DatabaseAgent(agentId, connectionString, query, category, idColumn, titleColumn, contentColumns))
  }

  /** `{k: row[k] for k in columns if k in row}` */
  function Select(row: Row, columns: seq<string>): Row {
    if columns == [] then []
    else
      var init := Select(row, columns[..|columns| - 1]);
      var k := columns[|columns| - 1];
      if Get(row, k).Some? then Put(init, k, Get(row, k).value) else init
  }

  /** The selected dict holds exactly the listed columns the row has, with the row's values. */
  lemma {:induction false} SelectEntries(row: Row, columns: seq<string>, k: string)
    ensures Keys(Select(row, columns)) == (set c | c in columns) * Keys(row)
    ensures Get(Select(row, columns), k) == if k in columns then Get(row, k) else None
    ensures DistinctKeys(Select(row, columns))
  {
    if columns != [] {
      var init := columns[..|columns| - 1];
      SelectEntries(row, init, k);
      assert forall c :: c in columns <==> c in init || c == columns[|columns| - 1];
    }
  }

  /** The listed columns present in the row, in list order. */
  function Present(row: Row, columns: seq<string>): seq<string> {
    if columns == [] then []
    else Present(row, columns[..|columns| - 1]) + (if columns[|columns| - 1] in Keys(row) then [columns[|columns| - 1]] else [])
  }

  /** With no column listed twice, the selected dict's keys come in the order of the list. */
  lemma {:induction false} SelectOrder(row: Row, columns: seq<string>)
    requires forall i, j :: 0 <= i < j < |columns| ==> columns[i] != columns[j]
    ensures KeyList(Select(row, columns)) == Present(row, columns)
  {
    if columns != [] {
      var init := columns[..|columns| - 1];
      var k := columns[|columns| - 1];
      SelectOrder(row, init);
      SelectEntries(row, init, k);
      var s := Select(row, init);
      if k in Keys(row) {
        assert k !in Keys(s);
        var s' := Put(s, k, Get(row, k).value);
        assert KeyList(s') == KeyList(s) + [k];
      }
    }
  }

  /** The columns that make the content: the listed ones the row has, or the whole row when no columns
      (or an empty list) are given. */
  function ContentDict(row: Row, contentColumns: Option<seq<string>>): (r: Row)
    ensures contentColumns.None? || contentColumns.value == [] ==> r == row
    ensures contentColumns.Some? && contentColumns.value != [] ==> r == Select(row, contentColumns.value)
  {
    if contentColumns.Some? && contentColumns.value != [] then Select(row, contentColumns.value) else row
  }

  /** The document of one row. */
  function RowDocument(agent: Agent, row: Row, dumps: Row -> string, now: Timestamp): (d: Document)
    requires agent.DatabaseAgent?
    ensures d.sourceType == "database" && d.category == agent.category && d.metadata == row
    ensures d.content == dumps(ContentDict(row, agent.contentColumns))
    ensures d.sourceId == agent.agentId + "_" + PyStr(GetOr(row, agent.idColumn, Str("unknown")))
    ensures agent.idColumn !in Keys(row) ==> d.sourceId == agent.agentId + "_unknown"
    ensures d.title.Some? <==> agent.titleColumn.Some? && agent.titleColumn.value != "" && agent.titleColumn.value in Keys(row)
    ensures d.title.Some? ==> d.title.value == PyStr(Get(row, agent.titleColumn.value).value)
  {
    var sourceId := agent.agentId + "_" + PyStr(GetOr(row, agent.idColumn, Str("unknown")));
    var title :=
      if agent.titleColumn.Some? && agent.titleColumn.value != "" && Get(row, agent.titleColumn.value).Some?
      then Some(PyStr(Get(row, agent.titleColumn.value).value)) else None;
    Document(dumps(ContentDict(row, agent.contentColumns)), "database", sourceId, title, None, now, [],
             agent.category, row)
  }

  /** `collect`: the documents of the fetched rows, in row order; what fetching raised escapes. */
  method Collect(agent: Agent, rows: Result<seq<Row>, string>, dumps: Row -> string, now: Timestamp)
    returns (r: Result<seq<Document>, string>)
    requires agent.DatabaseAgent?
    ensures r.Ok? <==> rows.Ok?
    ensures r.Err? ==> r.error == rows.error
    ensures r.Ok? ==> |r.value| == |rows.value|
    ensures r.Ok? ==> forall i :: 0 <= i < |rows.value| ==> r.value[i] == RowDocument(agent, rows.value[i], dumps, now)
  {
    if rows.Err? {
      return Err(rows.error);
    }
    var documents: seq<Document> := [];
    var i := 0;
    while i < |rows.value|
      invariant 0 <= i <= |rows.value|
      invariant |documents| == i
      invariant forall j :: 0 <= j < i ==> documents[j] == RowDocument(agent, rows.value[j], dumps, now)
    {
      var rowDict := rows.value[i];
      var content := dumps(ContentDict(rowDict, agent.contentColumns));
      var sourceId := agent.agentId + "_" + PyStr(GetOr(rowDict, agent.idColumn, Str("unknown")));
      var title: Option<string> := None;
      if agent.titleColumn.Some? && agent.titleColumn.value != "" && Get(rowDict, agent.titleColumn.value).Some? {
        title := Some(PyStr(Get(rowDict, agent.titleColumn.value).value));
      }
      documents := documents + [Document(content, "database", sourceId, title, None, now, [], agent.category, rowDict)];
      i := i + 1;
    }
    r := Ok(documents);
  }

  /** `health_check`: healthy when connecting succeeds, otherwise the connection error's text. */
  function HealthCheck(connectError: Option<string>): (r: Dict<string, Value>)
    ensures Get(r, "healthy") == Some(Bool(connectError.None?))
    ensures connectError.Some? ==> Get(r, "error") == Some(Str(connectError.value))
  {
    if connectError.None? then [("healthy", Bool(true))]
    else [("healthy", Bool(false)), ("error", Str(connectError.value))]
  }
}
