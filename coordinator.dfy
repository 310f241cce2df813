/**
 * The coordinator's routes over its store: the agent registry, the task
 * ledger with its dispatcher, the system status and the configuration
 * entries. Each table is a map from the record's key to the record, so there
 * is at most one record per key. Time is the `now` argument, which never runs
 * backwards; the creation stamp of the next task is a counter.
 */
module McpRoutes {
  import opened Protocol
  import opened Records
  import opened LedgerUpdates
  import TaskListing
  import SystemStatus

  /** The loop of unregister_agent over the agent's pending tasks, cancelling each in turn. */
  method CancelPending(tasks: map<string, Task>, id: string, now: nat) returns (ts: map<string, Task>)
    ensures ts == CancelPendingOf(tasks, id, now)
  {
    ts := tasks;
    var pending := set k | k in ts && IsPendingOf(ts[k], id);
    while pending != {}
      invariant pending <= tasks.Keys && ts.Keys == tasks.Keys
      invariant forall k :: k in pending ==> IsPendingOf(tasks[k], id)
      invariant forall k :: k in tasks ==>
        ts[k] == if IsPendingOf(tasks[k], id) && k !in pending then Cancelled(tasks[k], now) else tasks[k]
      decreases |pending|
    {
      var k :| k in pending;
      ts := ts[k := Cancelled(ts[k], now)];
      pending := pending - {k};
    }
  }

  class Coordinator {
    var agents: map<string, Agent>
    var tasks: map<string, Task>
    var configs: map<string, Configuration>
    var clock: nat
    var nextStamp: nat

    ghost predicate Valid()
      reads this
    {
      && (forall id :: id in agents ==> agents[id].id == id)
      && TaskListing.Keyed(tasks)
      && TaskListing.DistinctStamps(tasks)
      && (forall k :: k in tasks ==> tasks[k].createdAt < nextStamp)
      && (forall k :: k in configs ==> configs[k].key == k)
    }

    constructor ()
      ensures Valid()
      ensures agents == map[] && tasks == map[] && configs == map[]
      ensures clock == 0 && nextStamp == 0
    {
      agents, tasks, configs := map[], map[], map[];
      clock, nextStamp := 0, 0;
    }

    // ------------------------------------------------------------ agents

    /** POST /agents. Invalid or duplicate registrations change nothing. */
    method RegisterAgent(req: AgentRegistration, now: nat) returns (r: Result<Agent, Error>)
      requires Valid() && clock <= now
      modifies this
      ensures Valid() && clock == now
      ensures tasks == old(tasks) && configs == old(configs) && nextStamp == old(nextStamp)
      ensures MissingRegistrationField(req).Some? ==>
                r == Err(InvalidInput(MissingRegistrationField(req).value)) && agents == old(agents)
      ensures MissingRegistrationField(req).None? && req.id.value in old(agents) ==>
                r == Err(Conflict) && agents == old(agents)
      ensures MissingRegistrationField(req).None? && req.id.value !in old(agents) ==>
                r == Ok(Registered(req, now)) && agents == old(agents)[req.id.value := Registered(req, now)]
    {
      clock := now;
      var missing := MissingRegistrationField(req);
      if missing.Some? {
        return Err(InvalidInput(missing.value));
      }
      if req.id.value in agents {
        return Err(Conflict);
      }
      var agent := Registered(req, now);
      agents := agents[agent.id := agent];
      r := Ok(agent);
    }

    /** PUT /agents/<id>. */
    method UpdateAgent(id: string, u: AgentUpdate, now: nat) returns (r: Result<Agent, Error>)
      requires Valid() && clock <= now
      modifies this
      ensures Valid() && clock == now
      ensures tasks == old(tasks) && configs == old(configs) && nextStamp == old(nextStamp)
      ensures id !in old(agents) ==> r == Err(NotFound) && agents == old(agents)
      ensures id in old(agents) ==>
                var a := ApplyAgentUpdate(old(agents)[id], u, now);
                r == Ok(a) && agents == old(agents)[id := a]
    {
      clock := now;
      if id !in agents {
        return Err(NotFound);
      }
      var agent := ApplyAgentUpdate(agents[id], u, now);
      agents := agents[id := agent];
      r := Ok(agent);
    }

    /** POST /agents/<id>/heartbeat. An unknown id changes no record. */
    method Heartbeat(id: string, now: nat) returns (r: Result<(), Error>)
      requires Valid() && clock <= now
      modifies this
      ensures Valid() && clock == now
      ensures tasks == old(tasks) && configs == old(configs) && nextStamp == old(nextStamp)
      ensures id !in old(agents) ==> r == Err(NotFound) && agents == old(agents)
      ensures id in old(agents) ==> r == Ok(()) && agents == old(agents)[id := Beat(old(agents)[id], now)]
    {
      clock := now;
      if id !in agents {
        return Err(NotFound);
      }
      agents := agents[id := Beat(agents[id], now)];
      r := Ok(());
    }

    /**
     * DELETE /agents/<id>. Every pending task of the agent is cancelled; its
     * running tasks and every other task are kept as they are, still naming
     * the removed agent.
     */
    method UnregisterAgent(id: string, now: nat) returns (r: Result<(), Error>)
      requires Valid() && clock <= now
      modifies this
      ensures Valid() && clock == now
      ensures configs == old(configs) && nextStamp == old(nextStamp)
      ensures id !in old(agents) ==> r == Err(NotFound) && agents == old(agents) && tasks == old(tasks)
      ensures id in old(agents) ==>
                && r == Ok(())
                && agents == old(agents) - {id}
                && tasks == CancelPendingOf(old(tasks), id, now)
    {
      clock := now;
      if id !in agents {
        return Err(NotFound);
      }
      tasks := CancelPending(tasks, id, now);
      agents := agents - {id};
      r := Ok(());
    }

    // ------------------------------------------------------------ tasks

    /** GET /tasks. */
    method GetTasks(f: TaskFilter) returns (r: seq<Task>)
      requires Valid()
      ensures TaskListing.IsListing(tasks, f, r)
    {
      r := TaskListing.GetTasks(tasks, f);
    }

    /**
     * POST /tasks, checked in order: agent_id and task_type present, the agent
     * exists, the agent is active. `freshId` is the new task's random id.
     */
    method CreateTask(req: TaskCreation, freshId: string, now: nat) returns (r: Result<Task, Error>)
      requires Valid() && clock <= now
      requires freshId !in tasks
      modifies this
      ensures Valid() && clock == now
      ensures agents == old(agents) && configs == old(configs)
      ensures req.agentId.None? ==> r == Err(InvalidInput("agent_id"))
      ensures req.agentId.Some? && req.taskType.None? ==> r == Err(InvalidInput("task_type"))
      ensures req.agentId.Some? && req.taskType.Some? && req.agentId.value !in old(agents) ==> r == Err(NotFound)
      ensures (req.agentId.Some? && req.taskType.Some? && req.agentId.value in old(agents)
               && old(agents)[req.agentId.value].status != ACTIVE) ==>
                r == Err(PreconditionFailed("Agent is not active"))
      ensures r.Ok? <==> req.agentId.Some? && req.taskType.Some? && req.agentId.value in old(agents)
                         && old(agents)[req.agentId.value].status == ACTIVE
      ensures r.Err? ==> tasks == old(tasks) && nextStamp == old(nextStamp)
      ensures r.Ok? ==>
                && r.value == CreatedTask(req, freshId, old(nextStamp))
                && tasks == old(tasks)[freshId := r.value]
                && nextStamp == old(nextStamp) + 1
    {
      clock := now;
      if req.agentId.None? {
        return Err(InvalidInput("agent_id"));
      }
      if req.taskType.None? {
        return Err(InvalidInput("task_type"));
      }
      var agentId := req.agentId.value;
      if agentId !in agents {
        return Err(NotFound);
      }
      if agents[agentId].status != ACTIVE {
        return Err(PreconditionFailed("Agent is not active"));
      }
      var task := CreatedTask(req, freshId, nextStamp);
      tasks := tasks[freshId := task];
      nextStamp := nextStamp + 1;
      r := Ok(task);
    }

    /** PUT /tasks/<task_id>/status. */
    method UpdateTaskStatus(taskId: string, u: StatusUpdate, now: nat) returns (r: Result<Task, Error>)
      requires Valid() && clock <= now
      modifies this
      ensures Valid() && clock == now
      ensures agents == old(agents) && configs == old(configs) && nextStamp == old(nextStamp)
      ensures taskId !in old(tasks) ==> r == Err(NotFound) && tasks == old(tasks)
      ensures taskId in old(tasks) ==>
                var t := ApplyStatusUpdate(old(tasks)[taskId], u, now);
                r == Ok(t) && tasks == old(tasks)[taskId := t]
    {
      clock := now;
      if taskId !in tasks {
        return Err(NotFound);
      }
      var task := ApplyStatusUpdate(tasks[taskId], u, now);
      tasks := tasks[taskId := task];
      r := Ok(task);
    }

    /**
     * POST /tasks/<task_id>/execute. The task must be pending and its agent
     * present and active, otherwise nothing changes. The task is committed as
     * running before the agent is called; `reply` is what the call to the
     * agent's /execute endpoint came back with.
     */
    method ExecuteTask(taskId: string, reply: HttpOutcome, now: nat) returns (r: Result<(), Error>)
      requires Valid() && clock <= now
      modifies this
      ensures Valid() && clock == now
      ensures agents == old(agents) && configs == old(configs) && nextStamp == old(nextStamp)
      ensures taskId !in old(tasks) ==> r == Err(NotFound) && tasks == old(tasks)
      ensures taskId in old(tasks) && old(tasks)[taskId].status != PENDING ==>
                r == Err(PreconditionFailed("Task is not in pending status")) && tasks == old(tasks)
      ensures taskId in old(tasks) && old(tasks)[taskId].status == PENDING
              && (old(tasks)[taskId].agentId !in agents || agents[old(tasks)[taskId].agentId].status != ACTIVE) ==>
                r == Err(PreconditionFailed("Agent not available")) && tasks == old(tasks)
      ensures (taskId in old(tasks) && old(tasks)[taskId].status == PENDING
               && old(tasks)[taskId].agentId in agents && agents[old(tasks)[taskId].agentId].status == ACTIVE) ==>
                && tasks == old(tasks)[taskId := Dispatched(old(tasks)[taskId], reply, now)]
                && r == match reply
                        case Answered(code) => if code == 200 then Ok(()) else Err(AgentRejected(code))
                        case TransportError(detail) => Err(TransportFailure(detail))
    {
      clock := now;
      if taskId !in tasks {
        return Err(NotFound);
      }
      var task := tasks[taskId];
      if task.status != PENDING {
        return Err(PreconditionFailed("Task is not in pending status"));
      }
      if task.agentId !in agents || agents[task.agentId].status != ACTIVE {
        return Err(PreconditionFailed("Agent not available"));
      }
      task := MarkRunning(task, now);
      tasks := tasks[taskId := task];
      match reply {
        case Answered(code) =>
          if code == 200 {
            r := Ok(());
          } else {
            tasks := tasks[taskId := MarkFailed(task, "Agent returned status " + NatToString(code), now)];
            r := Err(AgentRejected(code));
          }
        case TransportError(detail) =>
          tasks := tasks[taskId := MarkFailed(task, "Failed to communicate with agent: " + detail, now)];
          r := Err(TransportFailure(detail));
      }
    }

    /** GET /system/status. */
    method GetSystemStatus(now: nat) returns (r: SystemStatus.Report)
      ensures r == SystemStatus.GetSystemStatus(agents, tasks, now)
    {
      r := SystemStatus.GetSystemStatus(agents, tasks, now);
    }

    // ------------------------------------------------------------ configuration

    /** POST /configuration. Invalid or duplicate entries change nothing. */
    method CreateConfiguration(req: ConfigCreation, now: nat) returns (r: Result<Configuration, Error>)
      requires Valid() && clock <= now
      modifies this
      ensures Valid() && clock == now
      ensures agents == old(agents) && tasks == old(tasks) && nextStamp == old(nextStamp)
      ensures MissingConfigField(req).Some? ==> r == Err(InvalidInput("key, value")) && configs == old(configs)
      ensures MissingConfigField(req).None? && req.key.value in old(configs) ==>
                r == Err(Conflict) && configs == old(configs)
      ensures MissingConfigField(req).None? && req.key.value !in old(configs) ==>
                var c := NewConfiguration(req.key.value, req.value.value,
                                          Some(if req.description.Some? then req.description.value else ""), now);
                r == Ok(c) && configs == old(configs)[req.key.value := c]
    {
      clock := now;
      if MissingConfigField(req).Some? {
        return Err(InvalidInput("key, value"));
      }
      if req.key.value in configs {
        return Err(Conflict);
      }
      var c := NewConfiguration(req.key.value, req.value.value,
                                Some(if req.description.Some? then req.description.value else ""), now);
      configs := configs[c.key := c];
      r := Ok(c);
    }

    /** PUT /configuration/<key>. */
    method UpdateConfiguration(key: string, u: ConfigUpdate, now: nat) returns (r: Result<Configuration, Error>)
      requires Valid() && clock <= now
      modifies this
      ensures Valid() && clock == now
      ensures agents == old(agents) && tasks == old(tasks) && nextStamp == old(nextStamp)
      ensures key !in old(configs) ==> r == Err(NotFound) && configs == old(configs)
      ensures key in old(configs) ==>
                var c := ApplyConfigUpdate(old(configs)[key], u, now);
                r == Ok(c) && configs == old(configs)[key := c]
    {
      clock := now;
      if key !in configs {
        return Err(NotFound);
      }
      var c := ApplyConfigUpdate(configs[key], u, now);
      configs := configs[key := c];
      r := Ok(c);
    }
  }
}
