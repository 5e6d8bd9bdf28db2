/**
 * Loading source agents from their YAML configuration (`source_agents/config_loader.py`): `${VAR}`
 * substitution, building an agent of the configured type with its defaults, and registering every
 * enabled agent. Reading and parsing the file are inputs; the environment is a map.
 */
module AgentConfig {
  import opened Wrappers
  import opened Text
  import opened Dicts
  import opened Json
  import opened Config
  import opened SourceAgents
  import opened Registry
  import opened ScriptAgentModule
  import opened DatabaseAgentModule

  // ---------------------------------------------------------------------------------------------
  // _replace_env_vars

  /** A whole-string placeholder `${NAME}`: at least three characters, as the two ends cannot overlap. */
  predicate IsPlaceholder(s: string) {
    |s| >= 3 && s[..2] == "${" && s[|s| - 1] == '}'
  }

  /** `s.startswith("${") and s.endswith("}")` is exactly `IsPlaceholder`. */
  lemma PlaceholderTest(s: string)
    ensures StartsWith(s, "${") && EndsWith(s, "}") <==> IsPlaceholder(s)
  {
    if StartsWith(s, "${") && EndsWith(s, "}") {
      assert s[1] == '{';
      assert s[|s| - 1] == '}';
    }
    if IsPlaceholder(s) {
      assert s[|s| - 1..] == "}";
    }
  }

  /** `config[2:-1]` of a placeholder. */
  function PlaceholderName(s: string): string
    requires IsPlaceholder(s)
  {
    s[2..|s| - 1]
  }

  /** `_replace_env_vars` */
  function ReplaceEnvVars(v: Value, env: Env): (r: Value)
    ensures v.Str? && !IsPlaceholder(v.s) ==> r == v
    ensures v.Str? && IsPlaceholder(v.s) ==> r == Str(GetenvOr(env, PlaceholderName(v.s), v.s))
    ensures v.List? ==> r.List? && |r.items| == |v.items|
    ensures v.Dict? ==> r.Dict? && |r.entries| == |v.entries| &&
                        forall i :: 0 <= i < |v.entries| ==> r.entries[i].0 == v.entries[i].0
    ensures !v.Str? && !v.List? && !v.Dict? ==> r == v
    decreases v
  {
    match v
    case Str(s) => if IsPlaceholder(s) then Str(GetenvOr(env, PlaceholderName(s), s)) else v
    case List(items) => List(seq(|items|, i requires 0 <= i < |items| => ReplaceEnvVars(items[i], env)))
    case Dict(entries) =>
      Dict(seq(|entries|, i requires 0 <= i < |entries| =>
                 assert entries[i].1 < entries[i];
                 (entries[i].0, ReplaceEnvVars(entries[i].1, env))))
    case _ => v
  }

  /** Substitution is applied element by element inside lists and dicts. */
  lemma ReplaceInside(v: Value, env: Env)
    ensures v.List? ==> forall i :: 0 <= i < |v.items| ==> ReplaceEnvVars(v, env).items[i] == ReplaceEnvVars(v.items[i], env)
    ensures v.Dict? ==> forall i :: 0 <= i < |v.entries| ==>
              ReplaceEnvVars(v, env).entries[i] == (v.entries[i].0, ReplaceEnvVars(v.entries[i].1, env))
  {
  }

  /** No string in the value is a placeholder. */
  predicate NoPlaceholders(v: Value)
    decreases v
  {
    match v
    case Str(s) => !IsPlaceholder(s)
    case List(items) => forall i :: 0 <= i < |items| ==> NoPlaceholders(items[i])
    case Dict(entries) => forall i :: 0 <= i < |entries| ==> (assert entries[i].1 < entries[i]; NoPlaceholders(entries[i].1))
    case _ => true
  }

  /** Substitution is whole-string only: a value without placeholders comes back unchanged. */
  lemma {:induction false} NoPlaceholdersUnchanged(v: Value, env: Env)
    requires NoPlaceholders(v)
    ensures ReplaceEnvVars(v, env) == v
    decreases v
  {
    match v
    case List(items) =>
      forall i | 0 <= i < |items| ensures ReplaceEnvVars(items[i], env) == items[i] {
        NoPlaceholdersUnchanged(items[i], env);
      }
      assert ReplaceEnvVars(v, env).items == items;
    case Dict(entries) =>
      forall i | 0 <= i < |entries| ensures ReplaceEnvVars(entries[i].1, env) == entries[i].1 {
        assert entries[i].1 < entries[i];
        NoPlaceholdersUnchanged(entries[i].1, env);
      }
      assert ReplaceEnvVars(v, env).entries == entries;
    case _ =>
  }

  // ---------------------------------------------------------------------------------------------
  // create_agent_from_config

  /** `d[k]` of a string; a missing key raises `KeyError`, whose text is the quoted key. Values that are
      not strings are read as absent. */
  function RequiredText(d: seq<(string, Value)>, k: string): (r: Result<string, string>)
    ensures r.Ok? <==> Get(d, k).Some? && Get(d, k).value.Str?
    ensures r.Ok? ==> Get(d, k) == Some(Str(r.value))
    ensures r.Err? ==> r.error == "'" + k + "'"
  {
    var v := Get(d, k);
    if v.Some? && v.value.Str? then Ok(v.value.s) else Err("'" + k + "'")
  }

  /** `d.get(k)` of a list of strings; anything else is read as absent. */
  function TextList(d: seq<(string, Value)>, k: string): (r: Option<seq<string>>)
    ensures r.Some? ==> Get(d, k).Some? && Get(d, k).value.List? && |r.value| == |Get(d, k).value.items|
    ensures r.Some? ==> forall i :: 0 <= i < |r.value| ==> Get(d, k).value.items[i] == Str(r.value[i])
  {
    var v := Get(d, k);
    if v.Some? && v.value.List? && forall i :: 0 <= i < |v.value.items| ==> v.value.items[i].Str? then
      Some(seq(|v.value.items|, i requires 0 <= i < |v.value.items| && v.value.items[i].Str? => v.value.items[i].s))
    else None
  }

  /** The database branch, over the substituted agent config. */
  function DatabaseFromConfig(agentId: string, c: seq<(string, Value)>, asyncpgAvailable: bool): (r: Result<Agent, string>)
    ensures r.Ok? ==> r.value.DatabaseAgent? && r.value.agentId == agentId
    ensures r.Ok? ==> r.value.category == StrField(c, "category").GetOr("database") &&
                      r.value.idColumn == StrField(c, "id_column").GetOr("id")
    ensures r.Ok? <==> asyncpgAvailable && RequiredText(c, "connection_string").Ok? && RequiredText(c, "query").Ok?
    ensures r.Ok? ==> r.value.connectionString == RequiredText(c, "connection_string").value &&
                      r.value.query == RequiredText(c, "query").value
    ensures r.Ok? ==> r.value.titleColumn == StrField(c, "title_column") &&
                      r.value.contentColumns == TextList(c, "content_columns")
  {
    match RequiredText(c, "connection_string")
    case Err(e) => Err(e)
    case Ok(connectionString) =>
      match RequiredText(c, "query")
      case Err(e) => Err(e)
      case Ok(query) =>
        NewDatabaseAgent(asyncpgAvailable, agentId, connectionString, query,
                         StrField(c, "category").GetOr("database"), StrField(c, "id_column").GetOr("id"),
                         StrField(c, "title_column"), TextList(c, "content_columns"))
  }

  /** The script branch, over the substituted agent config. */
  function ScriptFromConfig(agentId: string, c: seq<(string, Value)>): (r: Result<Agent, string>)
    ensures r.Ok? ==> r.value.ScriptAgent? && r.value.agentId == agentId
    ensures r.Ok? ==> r.value.category == StrField(c, "category").GetOr("script")
    ensures r.Ok? && Get(c, "script_args").None? ==> r.value.scriptArgs == []
    ensures r.Ok? && TextList(c, "script_args").Some? ==> r.value.scriptArgs == TextList(c, "script_args").value
    ensures r.Ok? <==> RequiredText(c, "script_path").Ok?
    ensures r.Ok? ==> r.value.scriptPath == RequiredText(c, "script_path").value
  {
    match RequiredText(c, "script_path")
    case Err(e) => Err(e)
    case Ok(scriptPath) =>
      Ok(NewScriptAgent(agentId, scriptPath, StrField(c, "category").GetOr("script"), TextList(c, "script_args")))
  }

  /** The agent of the given type; `agent_config[...]` of a config that is not a dict raises. */
  function TypedAgent(agentId: string, agentType: Value, agentConfig: Value, asyncpgAvailable: bool): (r: Result<Agent, string>)
    ensures agentType != Str("database") && agentType != Str("script") ==> r == Err("Unknown agent type: " + PyStr(agentType))
    ensures agentType == Str("database") && agentConfig.Dict? ==> r == DatabaseFromConfig(agentId, agentConfig.entries, asyncpgAvailable)
    ensures agentType == Str("script") && agentConfig.Dict? ==> r == ScriptFromConfig(agentId, agentConfig.entries)
    ensures !agentConfig.Dict? ==> r.Err?
  {
    if agentType == Str("database") then
      if agentConfig.Dict? then DatabaseFromConfig(agentId, agentConfig.entries, asyncpgAvailable)
      else Err("agent config is not a mapping")
    else if agentType == Str("script") then
      if agentConfig.Dict? then ScriptFromConfig(agentId, agentConfig.entries)
      else Err("agent config is not a mapping")
    else Err("Unknown agent type: " + PyStr(agentType))
  }

  /** `create_agent_from_config`: the agent, or the text of what it raised. */
  function CreateAgentFromConfig(config: seq<(string, Value)>, env: Env, asyncpgAvailable: bool): (r: Result<Agent, string>)
    ensures RequiredText(config, "id").Err? ==> r == Err("'" + "id" + "'")
    ensures RequiredText(config, "id").Ok? && Get(config, "type").None? ==> r == Err("'type'")
    ensures RequiredText(config, "id").Ok? && Get(config, "type").Some? ==>
              r == TypedAgent(RequiredText(config, "id").value, Get(config, "type").value,
                              ReplaceEnvVars(GetOr(config, "config", Dict([])), env), asyncpgAvailable)
  {
    match RequiredText(config, "id")
    case Err(e) => Err(e)
    case Ok(agentId) =>
      var agentType := Get(config, "type");
      if agentType.None? then Err("'type'")
      else TypedAgent(agentId, agentType.value, ReplaceEnvVars(GetOr(config, "config", Dict([])), env), asyncpgAvailable)
  }

  /** Only `"database"` and `"script"` make an agent, of the matching kind; any other type raises. */
  lemma CreateDispatch(config: seq<(string, Value)>, env: Env, asyncpgAvailable: bool)
    requires RequiredText(config, "id").Ok? && Get(config, "type").Some?
    ensures var r := CreateAgentFromConfig(config, env, asyncpgAvailable); var t := Get(config, "type").value;
      && (r.Ok? ==> r.value.agentId == RequiredText(config, "id").value)
      && (r.Ok? && t == Str("database") ==> r.value.DatabaseAgent? && AgentType(r.value) == "database")
      && (r.Ok? && t == Str("script") ==> r.value.ScriptAgent? && AgentType(r.value) == "script")
      && (t != Str("database") && t != Str("script") ==> r == Err("Unknown agent type: " + PyStr(t)))
  {
  }

  /** Substitution keeps a dict's keys. */
  lemma SubstitutedKeys(c: seq<(string, Value)>, env: Env)
    ensures Keys(ReplaceEnvVars(Dict(c), env).entries) == Keys(c)
  {
    var s := ReplaceEnvVars(Dict(c), env).entries;
    forall k ensures k in Keys(s) <==> k in Keys(c) {
      KeysIndex(s, k);
      KeysIndex(c, k);
    }
  }

  /** The defaults: category `database` and id column `id`, category `script` and no script arguments. */
  lemma CreateDefaults(config: seq<(string, Value)>, c: seq<(string, Value)>, env: Env, asyncpgAvailable: bool)
    requires Get(config, "config") == Some(Dict(c))
    requires "category" !in Keys(c) && "id_column" !in Keys(c) && "script_args" !in Keys(c)
    ensures var r := CreateAgentFromConfig(config, env, asyncpgAvailable);
      && (r.Ok? && r.value.DatabaseAgent? ==> r.value.category == "database" && r.value.idColumn == "id")
      && (r.Ok? && r.value.ScriptAgent? ==> r.value.category == "script" && r.value.scriptArgs == [])
  {
    var r := CreateAgentFromConfig(config, env, asyncpgAvailable);
    if r.Ok? {
      var s := ReplaceEnvVars(Dict(c), env).entries;
      SubstitutedKeys(c, env);
      assert ReplaceEnvVars(GetOr(config, "config", Dict([])), env) == Dict(s);
      var t := Get(config, "type").value;
      assert r == TypedAgent(RequiredText(config, "id").value, t, Dict(s), asyncpgAvailable);
      assert t == Str("database") ==> r == DatabaseFromConfig(RequiredText(config, "id").value, s, asyncpgAvailable);
      assert t == Str("script") ==> r == ScriptFromConfig(RequiredText(config, "id").value, s);
    }
  }

  // ---------------------------------------------------------------------------------------------
  // load_agents_from_config

  /** What opening and parsing the configuration file gives. */
  datatype ConfigFile = NotFound | Unreadable(error: string) | Parsed(config: Value)

  /** The entries of the `agents` list, `None` when reaching them raises, and no entries when YAML is
      unavailable, the file is missing or unreadable, or no agents are defined. */
  function AgentEntries(yamlAvailable: bool, file: ConfigFile): (r: Option<seq<Value>>)
    ensures !yamlAvailable || !file.Parsed? || !Truthy(file.config) ==> r == Some([])
    ensures r.None? ==> yamlAvailable && file.Parsed? && Truthy(file.config)
    ensures yamlAvailable && file.Parsed? && file.config.Dict? ==>
              var agents := Get(file.config.entries, "agents");
              && (agents.None? ==> r == Some([]))
              && (agents.Some? && agents.value.List? ==> r == Some(agents.value.items))
              && (r.None? ==> agents.Some? && !agents.value.List? && !agents.value.Dict? && !agents.value.Str?)
  {
    if !yamlAvailable || !file.Parsed? then Some([])
    else
      var config := file.config;
      if !Truthy(config) then Some([])
      else if config.Dict? then
        if "agents" !in Keys(config.entries) then Some([])
        else
          match Get(config.entries, "agents").value
          case List(items) => Some(items)
          case Dict(entries) => Some(seq(|entries|, i requires 0 <= i < |entries| => Str(entries[i].0)))
          case Str(s) => Some(seq(|s|, i requires 0 <= i < |s| => Str([s[i]])))
          case _ => None
      else if config.List? then (if Str("agents") in config.items then None else Some([]))
      else if config.Str? then (if HasSubstring(config.s, "agents") then None else Some([]))
      else None
  }

  /** `agent_config.get('schedule', DefaultSchedule)`, a value that is not a string read as absent. */
  function ScheduleOf(entry: seq<(string, Value)>): (s: string)
    ensures "schedule" !in Keys(entry) ==> s == DefaultSchedule
    ensures StrField(entry, "schedule").Some? ==> s == StrField(entry, "schedule").value
  {
    StrField(entry, "schedule").GetOr(DefaultSchedule)
  }

  /** What one configuration entry does. An entry that is not a dict makes `.get` raise, and so does
      the handler that logs it, so the exception leaves the loader. */
  datatype EntryOutcome = Skipped | Registers(agent: Agent, schedule: string) | Escapes

  function EntryOutcomeOf(entry: Value, env: Env, asyncpgAvailable: bool): (r: EntryOutcome)
    ensures r.Escapes? <==> !entry.Dict?
    ensures r.Registers? <==> entry.Dict? && Truthy(GetOr(entry.entries, "enabled", Bool(true))) &&
                              CreateAgentFromConfig(entry.entries, env, asyncpgAvailable).Ok?
    ensures r.Registers? ==> r == Registers(CreateAgentFromConfig(entry.entries, env, asyncpgAvailable).value, ScheduleOf(entry.entries))
  {
    if !entry.Dict? then Escapes
    else if !Truthy(GetOr(entry.entries, "enabled", Bool(true))) then Skipped
    else
      match CreateAgentFromConfig(entry.entries, env, asyncpgAvailable)
      case Err(_) => Skipped
      case Ok(agent) => Registers(agent, ScheduleOf(entry.entries))
  }

  /** The outcome of each entry, in order, for a given way of handling one entry. */
  function OutcomesBy(entries: seq<Value>, outcomeOf: Value -> EntryOutcome): (r: seq<EntryOutcome>)
    ensures |r| == |entries|
    ensures forall i :: 0 <= i < |entries| ==> r[i] == outcomeOf(entries[i])
  {
    seq(|entries|, i requires 0 <= i < |entries| => outcomeOf(entries[i]))
  }

  /** The outcome of each entry, in order. */
  function Outcomes(entries: seq<Value>, env: Env, asyncpgAvailable: bool): (r: seq<EntryOutcome>)
    ensures |r| == |entries|
    ensures forall i :: 0 <= i < |entries| ==> r[i] == EntryOutcomeOf(entries[i], env, asyncpgAvailable)
  {
    OutcomesBy(entries, e => EntryOutcomeOf(e, env, asyncpgAvailable))
  }

  /** The registrations the loop makes for the given entry outcomes, in order, and whether an exception
      escaped it. */
  datatype LoadTrace = LoadTrace(registrations: seq<(Agent, string)>, escaped: bool)

  function Trace(outcomes: seq<EntryOutcome>): LoadTrace {
    if outcomes == [] then LoadTrace([], false)
    else
      var t := Trace(outcomes[..|outcomes| - 1]);
      if t.escaped then t
      else
        match outcomes[|outcomes| - 1]
        case Escapes => LoadTrace(t.registrations, true)
        case Skipped => t
        case Registers(a, s) => LoadTrace(t.registrations + [(a, s)], false)
  }

  /** A disabled entry is skipped without being built. */
  lemma DisabledSkipped(entry: Value, env: Env, asyncpgAvailable: bool)
    requires entry.Dict? && !Truthy(GetOr(entry.entries, "enabled", Bool(true)))
    ensures EntryOutcomeOf(entry, env, asyncpgAvailable) == Skipped
  {
  }

  /** No more agents are registered than there are entries, a skipped entry adds nothing, and an entry
      that escapes ends the loop. */
  lemma {:induction false} TraceCounts(outcomes: seq<EntryOutcome>)
    ensures |Trace(outcomes).registrations| <= |outcomes|
    ensures Trace(outcomes + [Skipped]) == Trace(outcomes)
    ensures Trace(outcomes + [Escapes]).escaped
    ensures Trace(outcomes + [Escapes]).registrations == Trace(outcomes).registrations
  {
    if outcomes != [] {
      TraceCounts(outcomes[..|outcomes| - 1]);
    }
    assert (outcomes + [Skipped])[..|outcomes|] == outcomes;
    assert (outcomes + [Escapes])[..|outcomes|] == outcomes;
  }

  /** When every entry registers an agent, each one is registered, in order. */
  lemma {:induction false} TraceAllRegistered(outcomes: seq<EntryOutcome>)
    requires forall i :: 0 <= i < |outcomes| ==> outcomes[i].Registers?
    ensures !Trace(outcomes).escaped
    ensures |Trace(outcomes).registrations| == |outcomes|
    ensures forall i :: 0 <= i < |outcomes| ==>
              Trace(outcomes).registrations[i] == (outcomes[i].agent, outcomes[i].schedule)
  {
    if outcomes != [] {
      TraceAllRegistered(outcomes[..|outcomes| - 1]);
    }
  }

  /** Once an exception escaped, later entries change nothing. */
  lemma {:induction false} TraceEscapedPersists(outcomes: seq<EntryOutcome>, n: nat)
    requires n <= |outcomes| && Trace(outcomes[..n]).escaped
    ensures Trace(outcomes) == Trace(outcomes[..n])
    decreases |outcomes| - n
  {
    if n == |outcomes| {
      assert outcomes[..n] == outcomes;
    } else {
      assert outcomes[..n + 1][..n] == outcomes[..n];
      TraceEscapedPersists(outcomes, n + 1);
    }
  }

  /** One more entry, while nothing has escaped: a skipped entry leaves the trace as it was, an
      escaping one ends it, and a registering one adds its agent and schedule at the end. */
  lemma TraceStep(outcomes: seq<EntryOutcome>, i: nat)
    requires i < |outcomes| && !Trace(outcomes[..i]).escaped
    ensures outcomes[i].Skipped? ==> Trace(outcomes[..i + 1]) == Trace(outcomes[..i])
    ensures outcomes[i].Escapes? ==> Trace(outcomes[..i + 1]) == LoadTrace(Trace(outcomes[..i]).registrations, true)
    ensures outcomes[i].Registers? ==>
              Trace(outcomes[..i + 1]) ==
              LoadTrace(Trace(outcomes[..i]).registrations + [(outcomes[i].agent, outcomes[i].schedule)], false)
  {
    assert outcomes[..i + 1][..i] == outcomes[..i];
  }

  /** The agents dict after registering the given agents in order. */
  function AgentsAfter(agents: Dict<string, Agent>, regs: seq<(Agent, string)>): Dict<string, Agent> {
    if regs == [] then agents
    else
      var last := regs[|regs| - 1];
      Put(AgentsAfter(agents, regs[..|regs| - 1]), last.0.agentId, last.0)
  }

  /** The schedules dict after registering the given agents in order. */
  function SchedulesAfter(schedules: Dict<string, string>, regs: seq<(Agent, string)>): Dict<string, string> {
    if regs == [] then schedules
    else
      var last := regs[|regs| - 1];
      Put(SchedulesAfter(schedules, regs[..|regs| - 1]), last.0.agentId, last.1)
  }

  /** Registering one more agent puts it, and its schedule, under its id. */
  lemma AfterStep(agents: Dict<string, Agent>, schedules: Dict<string, string>, regs: seq<(Agent, string)>,
                  agent: Agent, schedule: string)
    ensures AgentsAfter(agents, regs + [(agent, schedule)]) == Put(AgentsAfter(agents, regs), agent.agentId, agent)
    ensures SchedulesAfter(schedules, regs + [(agent, schedule)]) ==
            Put(SchedulesAfter(schedules, regs), agent.agentId, schedule)
  {
    assert (regs + [(agent, schedule)])[..|regs|] == regs;
  }

  /** Nothing is registered, and the count is 0, when YAML is unavailable, the file is missing or
      unreadable, or the configuration defines no agents. */
  lemma NothingToLoad(yamlAvailable: bool, file: ConfigFile)
    requires !yamlAvailable || file.NotFound? || file.Unreadable? ||
             (file.Parsed? && (!Truthy(file.config) || (file.config.Dict? && "agents" !in Keys(file.config.entries))))
    ensures AgentEntries(yamlAvailable, file) == Some([])
  {
  }

  /** The registry is valid and holds what registering `regs` in order gives, from `agents0` and
      `schedules0`. */
  ghost predicate RegisteredAfter(registry: AgentRegistry, agents0: Dict<string, Agent>, schedules0: Dict<string, string>,
                                  regs: seq<(Agent, string)>)
    reads registry
  {
    && registry.Valid()
    && registry.agents == AgentsAfter(agents0, regs)
    && registry.schedules == SchedulesAfter(schedules0, regs)
  }

  /** `registry.register(agent, schedule)` after the registrations `regs`: the dicts become those after
      one more registration. */
  method RegisterNext(registry: AgentRegistry, ghost agents0: Dict<string, Agent>, ghost schedules0: Dict<string, string>,
                      ghost regs: seq<(Agent, string)>, agent: Agent, schedule: string)
    requires RegisteredAfter(registry, agents0, schedules0, regs)
    modifies registry
    ensures RegisteredAfter(registry, agents0, schedules0, regs + [(agent, schedule)])
  {
    AfterStep(agents0, schedules0, regs, agent, schedule);
    registry.Register(agent, schedule);
  }

  /** One entry of the loop, while nothing has escaped: a registering entry is registered, and the
      trace grows by that entry. */
  method HandleOutcome(registry: AgentRegistry, ghost agents0: Dict<string, Agent>, ghost schedules0: Dict<string, string>,
                       ghost outcomes: seq<EntryOutcome>, i: nat, outcome: EntryOutcome, ghost t: LoadTrace)
    returns (ghost t': LoadTrace)
    requires i < |outcomes| && outcome == outcomes[i]
    requires t == Trace(outcomes[..i]) && !t.escaped
    requires RegisteredAfter(registry, agents0, schedules0, t.registrations)
    modifies registry
    ensures t' == Trace(outcomes[..i + 1])
    ensures t'.escaped <==> outcome.Escapes?
    ensures |t'.registrations| == |t.registrations| + (if outcome.Registers? then 1 else 0)
    ensures RegisteredAfter(registry, agents0, schedules0, t'.registrations)
  {
    TraceStep(outcomes, i);
    t' := Trace(outcomes[..i + 1]);
    if outcome.Registers? {
      RegisterNext(registry, agents0, schedules0, t.registrations, outcome.agent, outcome.schedule);
    }
  }

  /** The loop of `load_agents_from_config` over the configured entries, each handled by `outcomeOf`:
      the number of agents registered, or `None` when an exception escapes (the agents registered
      before it stay registered). */
  method RegisterEntries(entries: seq<Value>, outcomeOf: Value -> EntryOutcome, registry: AgentRegistry)
    returns (count: Option<nat>)
    requires registry.Valid()
    modifies registry
    ensures var t := Trace(OutcomesBy(entries, outcomeOf));
      && count == (if t.escaped then None else Some(|t.registrations|))
      && RegisteredAfter(registry, old(registry.agents), old(registry.schedules), t.registrations)
  {
    ghost var outcomes := OutcomesBy(entries, outcomeOf);
    ghost var agents0 := registry.agents;
    ghost var schedules0 := registry.schedules;
    ghost var t := LoadTrace([], false);
    var registeredCount := 0;
    var i := 0;
    while i < |entries|
      invariant 0 <= i <= |entries|
      invariant t == Trace(outcomes[..i]) && !t.escaped
      invariant registeredCount == |t.registrations|
      invariant RegisteredAfter(registry, agents0, schedules0, t.registrations)
    {
      var outcome := outcomeOf(entries[i]);
      t := HandleOutcome(registry, agents0, schedules0, outcomes, i, outcome, t);
      if outcome.Escapes? {
        TraceEscapedPersists(outcomes, i + 1);
        return None;
      }
      if outcome.Registers? {
        registeredCount := registeredCount + 1;
      }
      i := i + 1;
    }
    assert outcomes[..i] == outcomes;
    count := Some(registeredCount);
  }

  /** `load_agents_from_config`: the number of agents registered, or `None` when an exception escapes
      (the agents registered before it stay registered). */
  method LoadAgentsFromConfig(yamlAvailable: bool, file: ConfigFile, registry: AgentRegistry, env: Env, asyncpgAvailable: bool)
    returns (count: Option<nat>)
    requires registry.Valid()
    modifies registry
    ensures registry.Valid()
    ensures AgentEntries(yamlAvailable, file).None? ==>
              count.None? && registry.agents == old(registry.agents) && registry.schedules == old(registry.schedules)
    ensures AgentEntries(yamlAvailable, file).Some? ==>
              var t := Trace(Outcomes(AgentEntries(yamlAvailable, file).value, env, asyncpgAvailable));
              && count == (if t.escaped then None else Some(|t.registrations|))
              && registry.agents == AgentsAfter(old(registry.agents), t.registrations)
              && registry.schedules == SchedulesAfter(old(registry.schedules), t.registrations)
  {
    var found := AgentEntries(yamlAvailable, file);
    if found.None? {
      return None;
    }
    count := RegisterEntries(found.value, e => EntryOutcomeOf(e, env, asyncpgAvailable), registry);
    assert OutcomesBy(found.value, e => EntryOutcomeOf(e, env, asyncpgAvailable)) ==
           Outcomes(found.value, env, asyncpgAvailable);
  }
}
