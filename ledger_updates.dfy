/**
 * How each coordinator route changes one record: registration, partial
 * updates, heartbeats, cancellation on unregistration, the status-update
 * edges of the task state machine, the dispatcher's writes and configuration
 * entries. The store (McpRoutes.Coordinator) applies these to its maps.
 */
module LedgerUpdates {
  import opened Protocol
  import opened Records

  /** The failures a route reports; none of them changes the store except as the route states. */
  datatype Error =
    | InvalidInput(missing: string)      // a required field is absent (400)
    | NotFound                           // unknown agent, task or configuration key
    | Conflict                           // duplicate agent id or configuration key (409)
    | PreconditionFailed(reason: string) // entity in the wrong state (400)
    | AgentRejected(code: nat)           // dispatch: the agent answered with a non-200 code
    | TransportFailure(detail: string)   // dispatch: the agent could not be reached

  // ---------------------------------------------------------------- agents

  /** The first of id, name, endpoint (checked in that order) that the body lacks. */
  function MissingRegistrationField(req: AgentRegistration): (r: Option<string>)
    ensures r.None? <==> req.id.Some? && req.name.Some? && req.endpoint.Some?
    ensures r == Some("id") <==> req.id.None?
    ensures r == Some("name") <==> req.id.Some? && req.name.None?
    ensures r == Some("endpoint") <==> req.id.Some? && req.name.Some? && req.endpoint.None?
  {
    if req.id.None? then Some("id")
    else if req.name.None? then Some("name")
    else if req.endpoint.None? then Some("endpoint")
    else None
  }

  /** The agent a valid registration creates: active, with every timestamp now. */
  function Registered(req: AgentRegistration, now: nat): (a: Agent)
    requires MissingRegistrationField(req).None?
    ensures a.id == req.id.value && a.name == req.name.value && a.endpoint == req.endpoint.value
    ensures a.status == ACTIVE
    ensures a.description == Some(if req.description.Some? then req.description.value else "")
    ensures GetCapabilities(a) == if req.capabilities.Some? then req.capabilities.value else JArr([])
    ensures a.lastHeartbeat == a.createdAt == a.updatedAt == Some(now)
  {
    var a := NewAgent(req.id.value, req.name.value, req.endpoint.value, now)
              .(description := Some(if req.description.Some? then req.description.value else ""),
                status := ACTIVE);
    if req.capabilities.Some? then SetCapabilities(a, req.capabilities.value) else a
  }

  /** update_agent: exactly the fields present in the body change, and updated_at becomes now. */
  function ApplyAgentUpdate(a: Agent, u: AgentUpdate, now: nat): (r: Agent)
    ensures r.id == a.id && r.createdAt == a.createdAt && r.lastHeartbeat == a.lastHeartbeat
    ensures r.name == if u.name.Some? then u.name.value else a.name
    ensures r.description == if u.description.Some? then u.description else a.description
    ensures r.endpoint == if u.endpoint.Some? then u.endpoint.value else a.endpoint
    ensures r.status == if u.status.Some? then u.status.value else a.status
    ensures u.capabilities.Some? ==> GetCapabilities(r) == u.capabilities.value
    ensures u.capabilities.None? ==> r.capabilities == a.capabilities
    ensures r.updatedAt == Some(now)
  {
    var a1 := if u.name.Some? then a.(name := u.name.value) else a;
    var a2 := if u.description.Some? then a1.(description := u.description) else a1;
    var a3 := if u.endpoint.Some? then a2.(endpoint := u.endpoint.value) else a2;
    var a4 := if u.capabilities.Some? then SetCapabilities(a3, u.capabilities.value) else a3;
    var a5 := if u.status.Some? then a4.(status := u.status.value) else a4;
    a5.(updatedAt := Some(now))
  }

  /** Repeating an update is the same as doing it once, at the later time. */
  lemma AgentUpdateIdempotent(a: Agent, u: AgentUpdate, t1: nat, t2: nat)
    ensures ApplyAgentUpdate(ApplyAgentUpdate(a, u, t1), u, t2) == ApplyAgentUpdate(a, u, t2)
  {
  }

  /** An update with no fields only refreshes updated_at. */
  lemma EmptyAgentUpdateOnlyTouches(a: Agent, now: nat)
    ensures ApplyAgentUpdate(a, AgentUpdate(None, None, None, None, None), now) == a.(updatedAt := Some(now))
  {
  }

  /**
   * A heartbeat: last_heartbeat becomes now and the status active. The
   * row's updated_at column refreshes itself on every UPDATE of the row, so
   * it becomes now as well; no other column moves.
   */
  function Beat(a: Agent, now: nat): (r: Agent)
    ensures r.lastHeartbeat == Some(now) && r.status == ACTIVE && r.updatedAt == Some(now)
    ensures r.(lastHeartbeat := a.lastHeartbeat, status := a.status, updatedAt := a.updatedAt) == a
  {
    a.(lastHeartbeat := Some(now), status := ACTIVE, updatedAt := Some(now))
  }

  /** Liveness is last-write: two heartbeats leave what the later one alone leaves. */
  lemma BeatIdempotent(a: Agent, t1: nat, t2: nat)
    ensures Beat(Beat(a, t1), t2) == Beat(a, t2)
  {
  }

  // ---------------------------------------------------------------- unregistration

  predicate IsPendingOf(t: Task, agentId: string) {
    t.agentId == agentId && t.status == PENDING
  }

  /** What unregistration does to one pending task of the agent. */
  function Cancelled(t: Task, now: nat): (r: Task)
    ensures r.status == CANCELLED && r.errorMessage == Some("Agent unregistered")
    ensures r.completedAt == Some(now)
    ensures r.(status := t.status, errorMessage := t.errorMessage, completedAt := t.completedAt) == t
  {
    t.(status := CANCELLED, errorMessage := Some("Agent unregistered"), completedAt := Some(now))
  }

  /** The task table after unregistering agentId: its pending tasks cancelled, every other task as it was. */
  function CancelPendingOf(ts: map<string, Task>, agentId: string, now: nat): (r: map<string, Task>)
    ensures r.Keys == ts.Keys
    ensures forall k :: k in r ==> !IsPendingOf(r[k], agentId)
    ensures forall k :: k in ts && !IsPendingOf(ts[k], agentId) ==> r[k] == ts[k]
    ensures forall k :: k in ts && IsPendingOf(ts[k], agentId) ==> r[k] == Cancelled(ts[k], now)
    ensures forall k :: k in r ==> r[k].taskId == ts[k].taskId && r[k].createdAt == ts[k].createdAt
  {
    map k | k in ts :: if IsPendingOf(ts[k], agentId) then Cancelled(ts[k], now) else ts[k]
  }

  // ---------------------------------------------------------------- task creation

  /** The task a valid creation adds: pending, not started, priority and parameters as given or defaulted. */
  function CreatedTask(req: TaskCreation, id: string, stamp: nat): (t: Task)
    requires req.agentId.Some? && req.taskType.Some?
    ensures t.taskId == id && t.agentId == req.agentId.value && t.taskType == req.taskType.value
    ensures t.status == PENDING && t.createdAt == stamp
    ensures t.priority == if req.priority.Some? then req.priority.value else DEFAULT_PRIORITY
    ensures GetParameters(t) == if req.parameters.Some? then req.parameters.value else JObj(map[])
    ensures t.startedAt.None? && t.completedAt.None? && GetResult(t) == JNull && t.errorMessage.None?
  {
    var t := NewTask(id, req.agentId.value, req.taskType.value, stamp)
              .(priority := if req.priority.Some? then req.priority.value else DEFAULT_PRIORITY);
    if req.parameters.Some? then SetParameters(t, req.parameters.value) else t
  }

  // ---------------------------------------------------------------- task status

  /**
   * update_task_status. There is no transition guard: any status may follow
   * any other. started_at is stamped only on the pending-to-running edge;
   * completed_at on every entry into completed, failed or cancelled; result and
   * error_message are overwritten exactly when the body carries them.
   */
  function ApplyStatusUpdate(t: Task, u: StatusUpdate, now: nat): (r: Task)
    ensures r.taskId == t.taskId && r.agentId == t.agentId && r.taskType == t.taskType
    ensures r.parameters == t.parameters && r.priority == t.priority && r.createdAt == t.createdAt
    ensures u.status.Some? ==> r.status == u.status.value
    ensures u.status.None? ==> r.status == t.status && r.startedAt == t.startedAt && r.completedAt == t.completedAt
    ensures r.startedAt != t.startedAt ==> t.status == PENDING && r.status == RUNNING
    ensures u.status == Some(RUNNING) && t.status == PENDING ==> r.startedAt == Some(now)
    ensures r.completedAt != t.completedAt ==> IsTerminal(r.status)
    ensures u.status.Some? && IsTerminal(u.status.value) ==> r.completedAt == Some(now)
    ensures u.result.Some? ==> GetResult(r) == u.result.value
    ensures u.result.None? ==> r.result == t.result
    ensures r.errorMessage == if u.errorMessage.Some? then u.errorMessage else t.errorMessage
  {
    var t1 :=
      if u.status.None? then t
      else
        var s := u.status.value;
        var moved := t.(status := s);
        if s == RUNNING && t.status == PENDING then moved.(startedAt := Some(now))
        else if IsTerminal(s) then moved.(completedAt := Some(now))
        else moved;
    var t2 := if u.result.Some? then SetResult(t1, u.result.value) else t1;
    if u.errorMessage.Some? then t2.(errorMessage := u.errorMessage) else t2
  }

  /** Field-level last write wins: a later status write decides the status, whatever came before. */
  lemma LastStatusWriteWins(t: Task, u1: StatusUpdate, u2: StatusUpdate, t1: nat, t2: nat)
    requires u2.status.Some?
    ensures ApplyStatusUpdate(ApplyStatusUpdate(t, u1, t1), u2, t2).status == u2.status.value
  {
  }

  /**
   * started_at <= completed_at is not an invariant of the ledger: with no
   * transition guard, a completed task can be moved back to pending and then
   * to running, which stamps started_at after completed_at.
   */
  lemma StartedAfterCompletedIsReachable(t: Task)
    ensures var done := ApplyStatusUpdate(t, StatusUpdate(Some(COMPLETED), None, None), 1);
            var back := ApplyStatusUpdate(done, StatusUpdate(Some(PENDING), None, None), 2);
            var again := ApplyStatusUpdate(back, StatusUpdate(Some(RUNNING), None, None), 3);
            again.status == RUNNING && again.startedAt == Some(3) && again.completedAt == Some(1)
  {
  }

  // ---------------------------------------------------------------- dispatch

  /** Dispatch: before the agent is called, the task is committed as running, started now. */
  function MarkRunning(t: Task, now: nat): (r: Task)
    ensures r.status == RUNNING && r.startedAt == Some(now)
    ensures r.(status := t.status, startedAt := t.startedAt) == t
  {
    t.(status := RUNNING, startedAt := Some(now))
  }

  /**
   * Dispatch: when the agent answers other than 200 or cannot be reached, the
   * task is failed durably; the result column is left as it is.
   */
  function MarkFailed(t: Task, message: string, now: nat): (r: Task)
    ensures r.status == FAILED && r.errorMessage == Some(message) && r.completedAt == Some(now)
    ensures r.(status := t.status, errorMessage := t.errorMessage, completedAt := t.completedAt) == t
  {
    t.(status := FAILED, errorMessage := Some(message), completedAt := Some(now))
  }

  /** The diagnostic dispatch records for an agent reply; None when the agent accepted (200). */
  function DispatchDiagnostic(reply: HttpOutcome): (m: Option<string>)
    ensures m.None? <==> reply == Answered(200)
  {
    match reply
    case Answered(code) =>
      if code == 200 then None else Some("Agent returned status " + NatToString(code))
    case TransportError(detail) =>
      Some("Failed to communicate with agent: " + detail)
  }

  /**
   * The task after dispatching it with the given agent reply. Accepted: it
   * stays running and its completed_at is not touched. Rejected or
   * unreachable: it is failed with a diagnostic, completed now, result untouched.
   */
  function Dispatched(t: Task, reply: HttpOutcome, now: nat): (r: Task)
    ensures r.startedAt == Some(now)
    ensures r.result == t.result && r.taskId == t.taskId && r.createdAt == t.createdAt
    ensures reply == Answered(200) ==> r.status == RUNNING && r.completedAt == t.completedAt
    ensures reply != Answered(200) ==> r.status == FAILED && r.completedAt == Some(now) && r.errorMessage.Some?
  {
    var running := MarkRunning(t, now);
    match DispatchDiagnostic(reply)
    case None => running
    case Some(message) => MarkFailed(running, message, now)
  }

  /**
   * The dispatcher writes the task fields directly, but for a pending task the
   * effect is exactly that of the ledger's own status-update edges: running,
   * then (on failure) failed with the diagnostic.
   */
  lemma DispatchFollowsLedgerEdges(t: Task, reply: HttpOutcome, now: nat)
    requires t.status == PENDING
    ensures var running := ApplyStatusUpdate(t, StatusUpdate(Some(RUNNING), None, None), now);
            Dispatched(t, reply, now) ==
              match DispatchDiagnostic(reply)
              case None => running
              case Some(m) => ApplyStatusUpdate(running, StatusUpdate(Some(FAILED), None, Some(m)), now)
  {
  }

  // ---------------------------------------------------------------- configuration

  /** create_configuration requires both key and value. */
  function MissingConfigField(req: ConfigCreation): (r: Option<string>)
    ensures r.None? <==> req.key.Some? && req.value.Some?
  {
    if req.key.None? || req.value.None? then Some("key, value") else None
  }

  /** update_configuration: only the fields present change; updated_at always becomes now. */
  function ApplyConfigUpdate(c: Configuration, u: ConfigUpdate, now: nat): (r: Configuration)
    ensures r.key == c.key && r.createdAt == c.createdAt && r.updatedAt == Some(now)
    ensures r.value == if u.value.Some? then u.value.value else c.value
    ensures r.description == if u.description.Some? then u.description else c.description
  {
    var c1 := if u.value.Some? then c.(value := u.value.value) else c;
    var c2 := if u.description.Some? then c1.(description := u.description) else c1;
    c2.(updatedAt := Some(now))
  }

  lemma ConfigUpdateIdempotent(c: Configuration, u: ConfigUpdate, t1: nat, t2: nat)
    ensures ApplyConfigUpdate(ApplyConfigUpdate(c, u, t1), u, t2) == ApplyConfigUpdate(c, u, t2)
  {
  }
}
