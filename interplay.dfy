/**
 * The coordinator and an agent together. The dispatcher posts a task to the
 * agent's /execute endpoint; the agent handles it inside that request and
 * reports its progress through PUT /tasks/<task_id>/status, so the ledger sees
 * the agent's updates after the dispatcher's commit of `running` and before
 * the dispatcher reads the reply. Each write touches only the columns it
 * sets, so a late write by the dispatcher keeps the columns the agent wrote.
 */
module Interplay {
  import opened Protocol
  import opened Records
  import opened LedgerUpdates
  import TaskListing
  import SystemStatus
  import opened AgentBase
  import McpRoutes

  /** The body the dispatcher posts to the agent: task_id, task_type and the parameters or {}. */
  function DispatchPayload(t: Task): (req: TaskRequest)
    ensures req.taskId == Some(t.taskId) && req.taskType == Some(t.taskType)
    ensures ParametersOf(req) == GetParameters(t)
  {
    TaskRequest(Some(t.taskId), Some(t.taskType), Some(GetParameters(t)))
  }

  /**
   * Whether the agent's call c reaches the row of task t: a status update
   * addressed to t, or the unregistration of t's agent.
   */
  predicate Touches(c: Call, t: Task) {
    (c.StatusCall? && c.taskId == t.taskId) || (c.UnregisterCall? && c.agentId == t.agentId)
  }

  /**
   * The ledger row of task t after the coordinator has received the agent's
   * calls, the i-th at times[i]. A status update addressed to t applies its
   * edge; the unregistration of t's agent cancels t if it is still pending;
   * registrations and heartbeats touch only the agent table.
   */
  function Replay(t: Task, calls: seq<Call>, times: seq<nat>): (r: Task)
    requires |times| == |calls|
    ensures r.taskId == t.taskId && r.agentId == t.agentId && r.taskType == t.taskType
    ensures r.createdAt == t.createdAt && r.priority == t.priority && r.parameters == t.parameters
    ensures (forall i :: 0 <= i < |calls| ==> !Touches(calls[i], t)) ==> r == t
    decreases |calls|
  {
    if calls == [] then t
    else
      var next := match calls[0]
                  case StatusCall(id, u) => if id == t.taskId then ApplyStatusUpdate(t, u, times[0]) else t
                  case UnregisterCall(a) => if IsPendingOf(t, a) then Cancelled(t, times[0]) else t
                  case _ => t;
      var rest := Replay(next, calls[1..], times[1..]);
      assert forall i :: 1 <= i < |calls| ==> calls[i] == calls[1..][i - 1];
      rest
  }

  /**
   * An agent's unregistration, replayed onto one of its tasks, does to the row
   * what unregister_agent does to that task in the table.
   */
  lemma UnregisterReplayIsCancellation(t: Task, n: nat)
    ensures Replay(t, [UnregisterCall(t.agentId)], [n])
            == CancelPendingOf(map[t.taskId := t], t.agentId, n)[t.taskId]
    ensures t.status == PENDING ==> Replay(t, [UnregisterCall(t.agentId)], [n]).status == CANCELLED
    ensures t.status != PENDING ==> Replay(t, [UnregisterCall(t.agentId)], [n]) == t
  {
    var calls := [UnregisterCall(t.agentId)];
    assert calls[1..] == [];
  }

  /** The agent's registration body is accepted by the registry as an active agent on its localhost endpoint. */
  lemma AgentRegistrationIsAccepted(agentId: string, name: string, description: string, port: nat,
                                    caps: seq<string>, now: nat)
    ensures var body := RegistrationBody(agentId, name, description, port, caps);
            && MissingRegistrationField(body).None?
            && var a := Registered(body, now);
               && a.id == agentId && a.status == ACTIVE && a.description == Some(description)
               && a.endpoint == "http://localhost:" + NatToString(port)
               && GetCapabilities(a) == CapabilitiesJson(caps)
  {
  }

  /**
   * A pending task dispatched at d to an agent that supports its type ends,
   * once the agent's two reports (at t1 and t2) are in, completed with the
   * executor's result or failed with the exception text. The agent's running
   * report does not restamp started_at, so started_at <= completed_at.
   */
  lemma AgentRunOnDispatchedTask(t: Task, supported: seq<string>,
                                 execute: (string, string, Json) -> ExecOutcome,
                                 d: nat, t1: nat, t2: nat)
    requires t.status == PENDING && t.taskId != "" && t.taskType != "" && t.taskType in supported
    requires d <= t1 <= t2
    ensures var h := HandleTask(Some(DispatchPayload(t)), supported, execute);
            var r := Replay(MarkRunning(t, d), h.calls, [t1, t2]);
            && r.startedAt == Some(d) && r.completedAt == Some(t2)
            && r.startedAt.value <= r.completedAt.value
            && match execute(t.taskId, t.taskType, GetParameters(t))
               case Returned(res) =>
                 && r.status == COMPLETED && r.errorMessage == t.errorMessage
                 && GetResult(r) == (if res == JNull then GetResult(t) else res)
               case Raised(m) =>
                 && r.status == FAILED && r.result == t.result
                 && r.errorMessage == Some("Task execution failed: " + m)
  {
  }

  /**
   * A dispatched task whose type the agent does not support is failed by the
   * agent's one report; the agent still answers 200, so the dispatcher leaves it so.
   */
  lemma UnsupportedTypeFailsDispatchedTask(t: Task, supported: seq<string>,
                                           execute: (string, string, Json) -> ExecOutcome,
                                           d: nat, t1: nat)
    requires t.status == PENDING && t.taskId != "" && t.taskType != "" && t.taskType !in supported
    requires d <= t1
    ensures var h := HandleTask(Some(DispatchPayload(t)), supported, execute);
            var r := Replay(Dispatched(t, Answered(200), d), h.calls, [t1]);
            && |h.calls| == 1 && !h.invoked
            && r.status == FAILED && r.errorMessage == Some("Unsupported task type: " + t.taskType)
            && r.startedAt == Some(d) && r.completedAt == Some(t1)
  {
  }

  /**
   * The registry accepts an empty task type, the agent treats it as missing
   * and reports nothing, and its answer still carries HTTP 200: the dispatch
   * counts as accepted and the task stays running, never completed.
   */
  lemma EmptyTaskTypeNeverSettles(agentId: string, parameters: Option<Json>, priority: Option<int>,
                                  id: string, stamp: nat, supported: seq<string>,
                                  execute: (string, string, Json) -> ExecOutcome, d: nat)
    requires id != ""
    ensures var t := CreatedTask(TaskCreation(Some(agentId), Some(""), parameters, priority), id, stamp);
            var h := HandleTask(Some(DispatchPayload(t)), supported, execute);
            var r := Dispatched(t, Answered(200), d);
            && t.status == PENDING
            && h.calls == [] && !h.invoked && h.response == ErrorResponse(MISSING_FIELDS)
            && Replay(r, h.calls, []) == r
            && r.status == RUNNING && r.completedAt.None?
  {
  }

  /**
   * Two writers on one row: when the agent has reported completed but the
   * dispatcher's call then fails (a timeout, or an answer other than 200),
   * the dispatcher's write makes the task failed and completed at its own
   * time, while the result the agent stored stays.
   */
  lemma LateDispatchFailureKeepsResult(t: Task, res: Json, d: nat, t1: nat, t2: nat,
                                       reply: HttpOutcome, t3: nat)
    requires t.status == PENDING && t.taskId != "" && res != JNull
    requires reply != Answered(200)
    ensures var reports := [Report(t.taskId, RUNNING, JNull, None), Report(t.taskId, COMPLETED, res, None)];
            var reported := Replay(MarkRunning(t, d), reports, [t1, t2]);
            var f := MarkFailed(reported, DispatchDiagnostic(reply).value, t3);
            && reported.status == COMPLETED && GetResult(reported) == res
            && f.status == FAILED && GetResult(f) == res && f.completedAt == Some(t3)
            && f.startedAt == Some(d)
  {
  }

  // ---------------------------------------------------------------- unregistration and the counts

  function PendingOf(tasks: map<string, Task>, agentId: string): set<string> {
    set k | k in tasks && IsPendingOf(tasks[k], agentId)
  }

  lemma CancelMovesPending(tasks: map<string, Task>, agentId: string, now: nat)
    ensures var after, p := CancelPendingOf(tasks, agentId, now), PendingOf(tasks, agentId);
            |SystemStatus.TasksWith(after, PENDING)| + |p| == |SystemStatus.TasksWith(tasks, PENDING)|
  {
    var after, p := CancelPendingOf(tasks, agentId, now), PendingOf(tasks, agentId);
    var before, left := SystemStatus.TasksWith(tasks, PENDING), SystemStatus.TasksWith(after, PENDING);
    assert left == before - p;
    assert before == left + p;
    SystemStatus.DisjointUnionCardinality(left, p);
  }

  lemma CancelAddsCancelled(tasks: map<string, Task>, agentId: string, now: nat)
    ensures var after, p := CancelPendingOf(tasks, agentId, now), PendingOf(tasks, agentId);
            |SystemStatus.TasksWith(after, CANCELLED)| == |SystemStatus.TasksWith(tasks, CANCELLED)| + |p|
  {
    var after, p := CancelPendingOf(tasks, agentId, now), PendingOf(tasks, agentId);
    var before := SystemStatus.TasksWith(tasks, CANCELLED);
    assert SystemStatus.TasksWith(after, CANCELLED) == before + p;
    assert before * p == {};
    SystemStatus.DisjointUnionCardinality(before, p);
  }

  lemma CancelShrinksTotal(tasks: map<string, Task>, agentId: string, now: nat)
    ensures var after, p := CancelPendingOf(tasks, agentId, now), PendingOf(tasks, agentId);
            |SystemStatus.CountedTasks(after)| + |p| == |SystemStatus.CountedTasks(tasks)|
  {
    var after, p := CancelPendingOf(tasks, agentId, now), PendingOf(tasks, agentId);
    var left := SystemStatus.CountedTasks(after);
    assert SystemStatus.CountedTasks(tasks) == left + p;
    assert left * p == {};
    SystemStatus.DisjointUnionCardinality(left, p);
  }

  /**
   * Unregistering an agent with N pending tasks takes N from the pending
   * count and from the task total and adds N cancelled tasks; the running
   * count is unchanged.
   */
  lemma UnregisterMovesPendingToCancelled(tasks: map<string, Task>, agentId: string, now: nat)
    ensures var after := CancelPendingOf(tasks, agentId, now);
            var n := |PendingOf(tasks, agentId)|;
            && |SystemStatus.TasksWith(after, PENDING)| + n == |SystemStatus.TasksWith(tasks, PENDING)|
            && |SystemStatus.TasksWith(after, CANCELLED)| == |SystemStatus.TasksWith(tasks, CANCELLED)| + n
            && SystemStatus.TasksWith(after, RUNNING) == SystemStatus.TasksWith(tasks, RUNNING)
            && |SystemStatus.CountedTasks(after)| + n == |SystemStatus.CountedTasks(tasks)|
  {
    CancelMovesPending(tasks, agentId, now);
    CancelAddsCancelled(tasks, agentId, now);
    CancelShrinksTotal(tasks, agentId, now);
  }

  // ---------------------------------------------------------------- an end-to-end run

  /** Two matching tasks list in (priority, created_at) order, whatever the order they were stored in. */
  lemma TwoTaskListing(ts: map<string, Task>, f: TaskFilter, first: Task, second: Task, r: seq<Task>)
    requires first.taskId != second.taskId && ts == map[first.taskId := first, second.taskId := second]
    requires TaskListing.Matches(first, f) && TaskListing.Matches(second, f)
    requires TaskListing.Before(first, second)
    requires TaskListing.IsListing(ts, f, r)
    ensures r == [first, second]
  {
    var expected := [first, second];
    assert TaskListing.IsListing(ts, f, expected);
    TaskListing.ListingUnique(ts, f, r, expected);
  }

  /**
   * Register a1, create t1 at priority 5 and t2 at priority 1, list a1's
   * tasks, dispatch t2 (the agent accepts), and let the agent report running
   * and then completed with {"ok": true}.
   */
  method ListDispatchComplete(a1: string, endpoint: string, id1: string, id2: string)
    returns (listing: seq<Task>, final: Task)
    requires id1 != id2
    ensures |listing| == 2 && listing[0].taskId == id2 && listing[1].taskId == id1
    ensures listing[0].priority == 1 && listing[1].priority == DEFAULT_PRIORITY
    ensures final.taskId == id2 && final.status == COMPLETED
    ensures GetResult(final) == JObj(map["ok" := JBool(true)])
    ensures final.startedAt.Some? && final.completedAt.Some? && final.startedAt.value <= final.completedAt.value
  {
    var c := new McpRoutes.Coordinator();
    var reg := c.RegisterAgent(AgentRegistration(Some(a1), Some("a1"), Some(endpoint), None, None), 1);
    assert c.agents[a1].status == ACTIVE;
    var r1 := c.CreateTask(TaskCreation(Some(a1), Some("work"), None, Some(5)), id1, 2);
    var t1 := r1.value;
    assert c.tasks == map[id1 := t1] && t1.createdAt == 0;
    var r2 := c.CreateTask(TaskCreation(Some(a1), Some("work"), None, Some(1)), id2, 3);
    var t2 := r2.value;
    assert c.tasks == map[id2 := t2, id1 := t1];
    var filter := TaskFilter(Some(a1), None, None);
    listing := c.GetTasks(filter);
    TwoTaskListing(c.tasks, filter, t2, t1, listing);

    var sent := c.ExecuteTask(id2, Answered(200), 4);
    assert c.tasks[id2].status == RUNNING && c.tasks[id2].startedAt == Some(4);
    var u1 := c.UpdateTaskStatus(id2, StatusPayload(RUNNING, JNull, None), 5);
    assert c.tasks[id2].startedAt == Some(4);
    var u2 := c.UpdateTaskStatus(id2, StatusPayload(COMPLETED, JObj(map["ok" := JBool(true)]), None), 6);
    final := c.tasks[id2];
  }
}
