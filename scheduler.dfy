/**
 * The agent scheduler (`source_agents/scheduler.py`): one collection cycle of an agent (health check,
 * collect, upload), a cycle over all registered agents, and the `running` flag of the background loop.
 * What an agent's health check and collection return, and which uploads raise, are inputs; the clock
 * (timestamps, durations) and the background task itself are not modelled.
 */
module Scheduler {
  import opened Wrappers
  import opened Dicts
  import opened Json
  import opened Documents
  import opened SourceAgents
  import opened Registry
  import opened Uploader

  /** What one cycle of an agent meets: the health check's dict or the text of what it raised, the
      collected documents or the text of what `collect` raised, and the indices of the documents whose
      upload raises. */
  datatype AgentRun = AgentRun(health: Result<Dict<string, Value>, string>,
                               documents: Result<seq<Document>, string>,
                               failedUploads: set<nat>)

  /** The dict `run_agent` returns, without its timestamp and duration. */
  datatype RunResult =
    | Completed(agentId: string, documentsCollected: nat, documentsUploaded: nat)
    | Unhealthy(agentId: string, details: Dict<string, Value>)
    | Raised(agentId: string, error: string)
  {
    predicate Success() {
      Completed?
    }
  }

  const HealthCheckFailed: string := "Health check failed"

  /** The `"error"` entry of a failed result. */
  function ErrorText(r: RunResult): (e: Option<string>)
    ensures e.None? <==> r.Success()
  {
    match r
    case Completed(_, _, _) => None
    case Unhealthy(_, _) => Some(HealthCheckFailed)
    case Raised(_, e) => Some(e)
  }

  /** `health.get("healthy", False)`, read for its truth value. */
  predicate Healthy(health: Dict<string, Value>) {
    Truthy(GetOr(health, "healthy", Bool(false)))
  }

  /** The outcome of `run_agent`: the result, or the text of the `ValueError` for an unknown id. */
  function RunOutcome(agents: Dict<string, Agent>, agentId: string, run: AgentRun): Result<RunResult, string> {
    if Get(agents, agentId).None? then Err("Agent " + agentId + " not found")
    else
      match run.health
      case Err(e) => Ok(Raised(agentId, e))
      case Ok(health) =>
        if !Healthy(health) then Ok(Unhealthy(agentId, health))
        else
          match run.documents
          case Err(e) => Ok(Raised(agentId, e))
          case Ok(docs) =>
            var keys := if docs != [] then UploadedKeys(docs, run.failedUploads) else [];
            Ok(Completed(agentId, |docs|, |keys|))
  }

  /** An unknown id raises; a known one always gives a result for that id. */
  lemma RunUnknownRaises(agents: Dict<string, Agent>, agentId: string, run: AgentRun)
    ensures RunOutcome(agents, agentId, run).Err? <==> agentId !in Keys(agents)
    ensures RunOutcome(agents, agentId, run).Err? ==> RunOutcome(agents, agentId, run).error == "Agent " + agentId + " not found"
    ensures RunOutcome(agents, agentId, run).Ok? ==> RunOutcome(agents, agentId, run).value.agentId == agentId
  {
  }

  /** A health result that is not truthily healthy (a missing `"healthy"` counts as unhealthy) fails the
      run with `"Health check failed"` and the health dict as details, whatever `collect` would do: it
      is not called. */
  lemma UnhealthySkipsCollect(agents: Dict<string, Agent>, agentId: string, run: AgentRun,
                              documents: Result<seq<Document>, string>, failedUploads: set<nat>)
    requires agentId in Keys(agents) && run.health.Ok? && !Healthy(run.health.value)
    ensures RunOutcome(agents, agentId, run) == Ok(Unhealthy(agentId, run.health.value))
    ensures RunOutcome(agents, agentId, run) == RunOutcome(agents, agentId, AgentRun(run.health, documents, failedUploads))
    ensures ErrorText(RunOutcome(agents, agentId, run).value) == Some(HealthCheckFailed)
    ensures "healthy" !in Keys(run.health.value) ==> RunOutcome(agents, agentId, run).value.Unhealthy?
  {
  }

  /** A completed run counts every collected document and only the uploaded ones, so it never reports
      more uploads than documents; with no documents nothing is uploaded. */
  lemma {:induction false} CompletedCounts(agents: Dict<string, Agent>, agentId: string, run: AgentRun)
    requires RunOutcome(agents, agentId, run).Ok? && RunOutcome(agents, agentId, run).value.Completed?
    ensures var r := RunOutcome(agents, agentId, run).value;
      && run.documents.Ok?
      && r.documentsCollected == |run.documents.value|
      && r.documentsUploaded <= r.documentsCollected
      && (run.documents.value == [] ==> r.documentsUploaded == 0)
      && ((forall i :: 0 <= i < |run.documents.value| ==> i !in run.failedUploads) ==> r.documentsUploaded == r.documentsCollected)
  {
    UploadedKeysBounds(run.documents.value, run.failedUploads);
  }

  /** An exception from the health check or from `collect` fails the run with the exception's text. */
  lemma RaisedCarriesError(agents: Dict<string, Agent>, agentId: string, run: AgentRun)
    requires agentId in Keys(agents)
    ensures run.health.Err? ==> RunOutcome(agents, agentId, run) == Ok(Raised(agentId, run.health.error))
    ensures run.health.Ok? && Healthy(run.health.value) && run.documents.Err? ==>
              RunOutcome(agents, agentId, run) == Ok(Raised(agentId, run.documents.error))
  {
  }

  /** The results of `run_all_agents`, one per id in registration order; a raising `run_agent` gives a
      failed entry with its text. */
  function RunAll(agents: Dict<string, Agent>, runs: string -> AgentRun): (r: seq<RunResult>)
    ensures |r| == |agents|
    ensures forall i :: 0 <= i < |r| ==> r[i].agentId == agents[i].0
  {
    seq(|agents|, i requires 0 <= i < |agents| =>
      match RunOutcome(agents, agents[i].0, runs(agents[i].0))
      case Ok(res) => res
      case Err(e) => Raised(agents[i].0, e))
  }

  /** Every agent of the registry is run once, in order, and none of the runs raises. */
  lemma RunAllIsRunAgent(agents: Dict<string, Agent>, runs: string -> AgentRun, i: nat)
    requires i < |agents|
    ensures RunOutcome(agents, agents[i].0, runs(agents[i].0)).Ok?
    ensures RunAll(agents, runs)[i] == RunOutcome(agents, agents[i].0, runs(agents[i].0)).value
  {
    KeysIndex(agents, agents[i].0);
  }

  class AgentScheduler {
    const registry: AgentRegistry
    const uploader: S3Uploader
    var running: bool
    /** How many scheduler loop tasks have been created (`_task` assignments). */
    var loopsStarted: nat

    constructor (registry: AgentRegistry, uploader: S3Uploader)
      ensures this.registry == registry && this.uploader == uploader
      ensures !running && loopsStarted == 0
    {
      this.registry := registry;
      this.uploader := uploader;
      running := false;
      loopsStarted := 0;
    }

    /** `run_agent` */
    method RunAgent(agentId: string, run: AgentRun) returns (r: Result<RunResult, string>)
      requires registry.Valid()
      ensures r == RunOutcome(registry.agents, agentId, run)
    {
      var agent := registry.GetAgent(agentId);
      if agent.None? {
        return Err("Agent " + agentId + " not found");
      }
      if run.health.Err? {
        return Ok(Raised(agentId, run.health.error));
      }
      var health := run.health.value;
      if !Truthy(GetOr(health, "healthy", Bool(false))) {
        return Ok(Unhealthy(agentId, health));
      }
      if run.documents.Err? {
        return Ok(Raised(agentId, run.documents.error));
      }
      var documents := run.documents.value;
      var uploadedKeys: seq<string>;
      if documents != [] {
        uploadedKeys := UploadBatch(documents, run.failedUploads);
      } else {
        uploadedKeys := [];
      }
      r := Ok(Completed(agentId, |documents|, |uploadedKeys|));
    }

    /** `run_all_agents` */
    method RunAllAgents(runs: string -> AgentRun) returns (results: seq<RunResult>)
      requires registry.Valid()
      ensures results == RunAll(registry.agents, runs)
    {
      var ids := registry.AgentIds();
      results := [];
      var i := 0;
      while i < |ids|
        invariant 0 <= i <= |ids|
        invariant |results| == i
        invariant forall j :: 0 <= j < i ==> results[j] == RunAll(registry.agents, runs)[j]
      {
        var agentId := ids[i];
        assert agentId == registry.agents[i].0;
        var outcome := RunAgent(agentId, runs(agentId));
        match outcome {
          case Ok(result) => results := results + [result];
          case Err(e) => results := results + [Raised(agentId, e)];
        }
        i := i + 1;
      }
    }

    /** `start`: a no-op when already running; otherwise sets `running` and creates the loop task. */
    method Start()
      modifies this
      ensures running
      ensures old(running) ==> loopsStarted == old(loopsStarted)
      ensures !old(running) ==> loopsStarted == old(loopsStarted) + 1
    {
      if running {
        return;
      }
      running := true;
      loopsStarted := loopsStarted + 1;
    }

    /** `stop`: a no-op when not running; otherwise clears `running` (and cancels the loop task). */
    method Stop()
      modifies this
      ensures !running
      ensures loopsStarted == old(loopsStarted)
    {
      if !running {
        return;
      }
      running := false;
    }
  }
}
