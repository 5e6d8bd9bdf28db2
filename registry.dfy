/**
 * The central registry of source agents (`source_agents/registry.py`): two dicts keyed by agent id,
 * the agents and their cron schedules, which every operation updates together.
 */
module Registry {
  import opened Wrappers
  import opened Dicts
  import opened Json
  import opened SourceAgents

  /** The schedule `register` uses when none is given: every six hours. */
  const DefaultSchedule: string := "0 */6 * * *"

  /** The registry's invariant: both dicts have the same ids in the same order, each id once, and every
      agent is stored under its own id. */
  ghost predicate Synced(agents: Dict<string, Agent>, schedules: Dict<string, string>) {
    && SameKeys(agents, schedules)
    && DistinctKeys(agents)
    && forall i :: 0 <= i < |agents| ==> agents[i].1.agentId == agents[i].0
  }

  /** Registering keeps the invariant, makes the agent and its schedule the entries of its id, and
      leaves every other id as it was. */
  lemma {:induction false} RegisterKeepsSynced(agents: Dict<string, Agent>, schedules: Dict<string, string>,
                                                agent: Agent, schedule: string)
    requires Synced(agents, schedules)
    ensures Synced(Put(agents, agent.agentId, agent), Put(schedules, agent.agentId, schedule))
    ensures Get(Put(agents, agent.agentId, agent), agent.agentId) == Some(agent)
    ensures Get(Put(schedules, agent.agentId, schedule), agent.agentId) == Some(schedule)
    ensures agent.agentId in Keys(agents) ==> Keys(Put(agents, agent.agentId, agent)) == Keys(agents)
  {
    var id := agent.agentId;
    var r := Put(agents, id, agent);
    PutSameKeys(agents, schedules, id, agent, schedule);
    KeysIndex(agents, id);
    if id in Keys(agents) {
      PutInPlace(agents, id, agent);
    }
    forall i | 0 <= i < |r| ensures r[i].1.agentId == r[i].0 {
      if id in Keys(agents) {
        if r[i].0 == id {
          KeysIndex(r, id);
          DistinctGet(r, i);
        } else {
          DistinctGet(r, i);
          DistinctGet(agents, i);
        }
      }
    }
  }

  /** What is stored under an id is an agent with that id. */
  lemma StoredUnderOwnId(agents: Dict<string, Agent>, schedules: Dict<string, string>, id: string)
    requires Synced(agents, schedules)
    ensures Get(agents, id).Some? ==> Get(agents, id).value.agentId == id
  {
    if Get(agents, id).Some? {
      KeysIndex(agents, id);
      var i :| 0 <= i < |agents| && agents[i].0 == id;
      DistinctGet(agents, i);
    }
  }

  /** Unregistering keeps the invariant and removes the id from both dicts, leaving the others. */
  lemma {:induction false} UnregisterKeepsSynced(agents: Dict<string, Agent>, schedules: Dict<string, string>, id: string)
    requires Synced(agents, schedules)
    ensures Synced(Remove(agents, id), Remove(schedules, id))
    ensures id !in Keys(Remove(agents, id)) && id !in Keys(Remove(schedules, id))
  {
    RemoveSameKeys(agents, schedules, id);
    var r := Remove(agents, id);
    forall i | 0 <= i < |r| ensures r[i].1.agentId == r[i].0 {
      DistinctGet(r, i);
      KeysIndex(agents, r[i].0);
      var j :| 0 <= j < |agents| && agents[j].0 == r[i].0;
      DistinctGet(agents, j);
    }
  }

  /** The entry `list_agents` gives for one agent: its metadata with the schedule added. */
  function Listing(a: Agent, schedules: Dict<string, string>): (r: Dict<string, Value>)
    ensures Keys(r) == {"agent_id", "agent_type", "version", "schedule"}
    ensures Get(r, "agent_id") == Some(Str(a.agentId))
    ensures Get(r, "agent_type") == Some(Str(AgentType(a)))
    ensures Get(r, "version") == Some(Str(Version))
    ensures Get(r, "schedule") == Some(match Get(schedules, a.agentId) case Some(s) => Str(s) case None => Null)
  {
    var schedule := match Get(schedules, a.agentId) case Some(s) => Str(s) case None => Null;
    Put(GetMetadata(a), "schedule", schedule)
  }

  /** `list_agents`: one entry per registered agent, in registration order. */
  function ListingAll(agents: Dict<string, Agent>, schedules: Dict<string, string>): (r: seq<Dict<string, Value>>)
    ensures |r| == |agents|
    ensures forall i :: 0 <= i < |r| ==> r[i] == Listing(agents[i].1, schedules)
  {
    seq(|agents|, i requires 0 <= i < |agents| => Listing(agents[i].1, schedules))
  }

  /** Every listed agent carries the schedule it was registered with. */
  lemma ListingSchedules(agents: Dict<string, Agent>, schedules: Dict<string, string>, i: nat)
    requires Synced(agents, schedules) && i < |agents|
    ensures Get(ListingAll(agents, schedules)[i], "schedule") == Some(Str(schedules[i].1))
    ensures Get(ListingAll(agents, schedules)[i], "agent_id") == Some(Str(agents[i].0))
  {
    assert DistinctKeys(schedules) by {
      forall a, b | 0 <= a < b < |schedules| ensures schedules[a].0 != schedules[b].0 {
        assert agents[a].0 != agents[b].0;
      }
    }
    DistinctGet(schedules, i);
  }

  /** Of a synced registry, every listing carries its agent's id and schedule. */
  lemma ListingSchedulesAll(agents: Dict<string, Agent>, schedules: Dict<string, string>)
    ensures Synced(agents, schedules) ==> forall i :: 0 <= i < |agents| ==>
              Get(ListingAll(agents, schedules)[i], "agent_id") == Some(Str(agents[i].0))
              && Get(ListingAll(agents, schedules)[i], "schedule") == Some(Str(schedules[i].1))
  {
    if Synced(agents, schedules) {
      forall i | 0 <= i < |agents|
        ensures Get(ListingAll(agents, schedules)[i], "agent_id") == Some(Str(agents[i].0))
        ensures Get(ListingAll(agents, schedules)[i], "schedule") == Some(Str(schedules[i].1))
      {
        ListingSchedules(agents, schedules, i);
      }
    }
  }

  class AgentRegistry {
    var agents: Dict<string, Agent>
    var schedules: Dict<string, string>

    ghost predicate Valid()
      reads this
    {
      Synced(agents, schedules)
    }

    constructor ()
      ensures Valid() && agents == [] && schedules == []
    {
      agents := [];
      schedules := [];
    }

    /** `register`; a caller that has no schedule passes `DefaultSchedule`. */
    method Register(agent: Agent, schedule: string)
      requires Valid()
      modifies this
      ensures Valid()
      ensures agents == Put(old(agents), agent.agentId, agent)
      ensures schedules == Put(old(schedules), agent.agentId, schedule)
    {
      RegisterKeepsSynced(agents, schedules, agent, schedule);
      agents := Put(agents, agent.agentId, agent);
      schedules := Put(schedules, agent.agentId, schedule);
    }

    /** `unregister`: `true` and the id removed from both dicts exactly when it was registered. */
    method Unregister(agentId: string) returns (removed: bool)
      requires Valid()
      modifies this
      ensures Valid()
      ensures removed <==> agentId in Keys(old(agents))
      ensures removed ==> agents == Remove(old(agents), agentId) && schedules == Remove(old(schedules), agentId)
      ensures !removed ==> agents == old(agents) && schedules == old(schedules)
    {
      if Get(agents, agentId).Some? {
        UnregisterKeepsSynced(agents, schedules, agentId);
        agents := Remove(agents, agentId);
        schedules := Remove(schedules, agentId);
        removed := true;
      } else {
        removed := false;
      }
    }

    /** `get_agent`: the agent registered under the id, `None` for an unknown id. */
    function GetAgent(agentId: string): (r: Option<Agent>)
      requires Valid()
      reads this
      ensures r.Some? <==> agentId in Keys(agents)
      ensures r.Some? ==> r.value.agentId == agentId
    {
      StoredUnderOwnId(agents, schedules, agentId);
      Get(agents, agentId)
    }

    /** `list_agents` */
    function ListAgents(): (r: seq<Dict<string, Value>>)
      reads this
      ensures |r| == |agents|
      ensures forall i :: 0 <= i < |r| ==>
                Keys(r[i]) == {"agent_id", "agent_type", "version", "schedule"}
                && Get(r[i], "agent_type") == Some(Str(AgentType(agents[i].1)))
                && Get(r[i], "version") == Some(Str(Version))
      ensures Valid() ==> forall i :: 0 <= i < |r| ==>
                Get(r[i], "agent_id") == Some(Str(agents[i].0)) && Get(r[i], "schedule") == Some(Str(schedules[i].1))
    {
      ListingSchedulesAll(agents, schedules);
      ListingAll(agents, schedules)
    }

    /** The ids in registration order (`agents.keys()`). */
    function AgentIds(): seq<string>
      reads this
    {
      KeyList(agents)
    }
  }
}
