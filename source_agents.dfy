/**
 * The source agents (`source_agents/base.py` and the two concrete agents): what an agent is as far as
 * the registry, the scheduler and the configuration loader see it, and its metadata.
 * Both concrete agents keep the fields their constructors set; nothing updates them afterwards.
 */
module SourceAgents {
  import opened Wrappers
  import opened Dicts
  import opened Json

  datatype Agent =
    | ScriptAgent(agentId: string, scriptPath: string, category: string, scriptArgs: seq<string>)
    | DatabaseAgent(agentId: string, connectionString: string, query: string, category: string,
                    idColumn: string, titleColumn: Option<string>, contentColumns: Option<seq<string>>)

  /** The `agent_type` property. */
  function AgentType(a: Agent): (r: string)
    ensures a.ScriptAgent? ==> r == "script"
    ensures a.DatabaseAgent? ==> r == "database"
  {
    if a.ScriptAgent? then "script" else "database"
  }

  const Version: string := "1.0.0"

  /** `get_metadata` */
  function GetMetadata(a: Agent): (r: Dict<string, Value>)
    ensures DistinctKeys(r) && Keys(r) == {"agent_id", "agent_type", "version"}
    ensures Get(r, "agent_id") == Some(Str(a.agentId))
    ensures Get(r, "agent_type") == Some(Str(AgentType(a)))
    ensures Get(r, "version") == Some(Str(Version))
  {
    var m0: Dict<string, Value> := [];
    var m1 := Put(m0, "agent_id", Str(a.agentId));
    var m2 := Put(m1, "agent_type", Str(AgentType(a)));
    Put(m2, "version", Str(Version))
  }
}
