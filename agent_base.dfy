/**
 * The agent side of the protocol: the base class every agent extends. It
 * registers with the coordinator, keeps a heartbeat thread alive while it
 * runs, and handles the tasks the coordinator dispatches to it, reporting
 * each task's progress back through PUT /tasks/<task_id>/status.
 *
 * Every request the agent sends upstream is appended to a ghost trace; the
 * coordinator's replies are logged and otherwise ignored, except the reply to
 * registration, which is an input. The concrete agent's executor and its list
 * of supported task types are parameters of the object.
 */
module AgentBase {
  import opened Protocol
  import opened Records

  /** What the concrete agent's execute_task did: returned a value, or raised an exception with its text. */
  datatype ExecOutcome = Returned(result: Json) | Raised(message: string)

  /**
   * The JSON body posted to the agent's /execute endpoint. A field is None
   * when its key is absent; `parameters` keeps a present JSON null as JNull.
   */
  datatype TaskRequest = TaskRequest(taskId: Option<string>, taskType: Option<string>, parameters: Option<Json>)

  /** The dictionary handle_task_request answers with. */
  datatype Response = ErrorResponse(error: string) | CompletedResponse(result: Json)

  /** One request the agent sends to the coordinator. */
  datatype Call =
    | RegisterCall(body: AgentRegistration)
    | HeartbeatCall(agentId: string)
    | StatusCall(taskId: string, update: StatusUpdate)
    | UnregisterCall(agentId: string)

  /** The heartbeat thread, as far as the flag logic can see it. */
  datatype ThreadState = NoThread | Alive | Finished

  /** The two fields the start/stop logic reads and writes: is_running and heartbeat_thread. */
  datatype Heart = Heart(isRunning: bool, thread: ThreadState)

  /** What one handle_task_request does: its answer, the status updates it sent, and whether it ran the executor. */
  datatype Handling = Handling(response: Response, calls: seq<Call>, invoked: bool)

  const MISSING_FIELDS := "Missing task_id or task_type"
  const INTERNAL_ERROR := "Internal agent error"
  /** The port an agent listens on when none is given. */
  const DEFAULT_AGENT_PORT: nat := 5001

  /** A value Python treats as true: present and not the empty string. */
  predicate Present(o: Option<string>) {
    o.Some? && o.value != ""
  }

  /** task_data.get('parameters', {}). */
  function ParametersOf(req: TaskRequest): Json {
    if req.parameters.Some? then req.parameters.value else JObj(map[])
  }

  // ---------------------------------------------------------------- upstream payloads

  /**
   * The body of the status update the agent sends: the status always; the
   * result only when it is not None; the error message only when it is not None.
   */
  function StatusPayload(status: string, result: Json, errorMessage: Option<string>): (u: StatusUpdate)
    ensures u.status == Some(status)
    ensures u.result.Some? <==> result != JNull
    ensures u.result.Some? ==> u.result.value == result
    ensures u.errorMessage == errorMessage
  {
    StatusUpdate(Some(status), if result == JNull then None else Some(result), errorMessage)
  }

  function Report(taskId: string, status: string, result: Json, errorMessage: Option<string>): Call {
    StatusCall(taskId, StatusPayload(status, result, errorMessage))
  }

  /** The capability list as the JSON array it is sent as. */
  function CapabilitiesJson(caps: seq<string>): (j: Json)
    ensures j.JArr? && |j.items| == |caps|
    ensures forall i :: 0 <= i < |caps| ==> j.items[i] == JStr(caps[i])
  {
    JArr(seq(|caps|, i requires 0 <= i < |caps| => JStr(caps[i])))
  }

  /** The registration body: every field present, the endpoint on localhost at the agent's port. */
  function RegistrationBody(agentId: string, name: string, description: string, port: nat, caps: seq<string>)
    : (b: AgentRegistration)
    ensures b.id == Some(agentId) && b.name == Some(name) && b.description == Some(description)
    ensures b.endpoint.Some? && b.endpoint.value == "http://localhost:" + NatToString(port)
    ensures b.capabilities == Some(CapabilitiesJson(caps))
  {
    AgentRegistration(Some(agentId), Some(name), Some("http://localhost:" + NatToString(port)),
                      Some(description), Some(CapabilitiesJson(caps)))
  }

  /** An agent constructed without a port registers the endpoint http://localhost:5001. */
  lemma DefaultPortEndpoint(agentId: string, name: string, description: string, caps: seq<string>)
    ensures RegistrationBody(agentId, name, description, DEFAULT_AGENT_PORT, caps).endpoint
            == Some("http://localhost:5001")
  {
    assert NatToString(5) == "5";
    assert NatToString(50) == "50";
    assert NatToString(500) == "500";
    assert NatToString(5001) == "5001";
    assert "http://localhost:" + "5001" == "http://localhost:5001";
  }

  // ---------------------------------------------------------------- task handling

  /**
   * handle_task_request on a body, for an agent supporting `supported` and
   * running tasks with `execute`. `body` is None when it is not a JSON object,
   * which makes the lookups raise and the outer handler answer "Internal agent error".
   */
  function HandleTask(body: Option<TaskRequest>, supported: seq<string>,
                      execute: (string, string, Json) -> ExecOutcome): (h: Handling)
    // the executor runs exactly for a well-formed request of a supported type
    ensures h.invoked <==>
              body.Some? && Present(body.value.taskId) && Present(body.value.taskType)
              && body.value.taskType.value in supported
    // nothing is sent upstream before the request is validated
    ensures h.calls == [] <==> body.None? || !Present(body.value.taskId) || !Present(body.value.taskType)
    ensures body.None? ==> h.response == ErrorResponse(INTERNAL_ERROR)
    ensures body.Some? && h.calls == [] ==> h.response == ErrorResponse(MISSING_FIELDS)
    // every update is about the task in the request, and the last one agrees with the answer
    ensures forall c :: c in h.calls ==> c.StatusCall? && c.taskId == body.value.taskId.value
    ensures h.calls != [] ==>
              var last := h.calls[|h.calls| - 1].update.status;
              && (last == Some(COMPLETED) <==> h.response.CompletedResponse?)
              && (last == Some(FAILED) <==> h.response.ErrorResponse?)
    // an unsupported type: one failed update naming the type
    ensures h.calls != [] && !h.invoked ==>
              var msg := "Unsupported task type: " + body.value.taskType.value;
              h.calls == [Report(body.value.taskId.value, FAILED, JNull, Some(msg))]
              && h.response == ErrorResponse(msg)
    // a supported type: running, then completed with the result or failed with the exception text
    ensures h.invoked ==>
              var id, ty := body.value.taskId.value, body.value.taskType.value;
              && |h.calls| == 2
              && h.calls[0] == Report(id, RUNNING, JNull, None)
              && match execute(id, ty, ParametersOf(body.value))
                 case Returned(res) =>
                   h.calls[1] == Report(id, COMPLETED, res, None) && h.response == CompletedResponse(res)
                 case Raised(m) =>
                   var msg := "Task execution failed: " + m;
                   h.calls[1] == Report(id, FAILED, JNull, Some(msg)) && h.response == ErrorResponse(msg)
  {
    if body.None? then Handling(ErrorResponse(INTERNAL_ERROR), [], false)
    else
      var req := body.value;
      if !Present(req.taskId) || !Present(req.taskType) then Handling(ErrorResponse(MISSING_FIELDS), [], false)
      else
        var id, ty := req.taskId.value, req.taskType.value;
        if ty !in supported then
          var msg := "Unsupported task type: " + ty;
          Handling(ErrorResponse(msg), [Report(id, FAILED, JNull, Some(msg))], false)
        else
          var running := Report(id, RUNNING, JNull, None);
          match execute(id, ty, ParametersOf(req))
          case Returned(res) =>
            Handling(CompletedResponse(res), [running, Report(id, COMPLETED, res, None)], true)
          case Raised(m) =>
            var msg := "Task execution failed: " + m;
            Handling(ErrorResponse(msg), [running, Report(id, FAILED, JNull, Some(msg))], true)
  }

  /**
   * Only an exception counts as failure: for an executor that never raises,
   * every supported task is reported completed, whatever its result says.
   */
  lemma NonRaisingExecutorAlwaysCompletes(req: TaskRequest, supported: seq<string>,
                                          execute: (string, string, Json) -> ExecOutcome)
    requires forall id, ty, p :: execute(id, ty, p).Returned?
    requires Present(req.taskId) && Present(req.taskType) && req.taskType.value in supported
    ensures HandleTask(Some(req), supported, execute).response.CompletedResponse?
    ensures HandleTask(Some(req), supported, execute).calls[1].update.status == Some(COMPLETED)
  {
  }

  /**
   * An executor that catches its own exception and returns an error-shaped
   * dictionary {"status": "error", "message": <the exception text>}, as the
   * blog agent's does, has that dictionary passed upstream as a completed result.
   */
  lemma ErrorShapedResultIsCompleted(id: string, ty: string, supported: seq<string>, message: string)
    requires id != "" && ty != "" && ty in supported
    ensures var err := JObj(map["status" := JStr("error"), "message" := JStr(message)]);
            var h := HandleTask(Some(TaskRequest(Some(id), Some(ty), None)), supported, (i, t, p) => Returned(err));
            h.calls[1] == StatusCall(id, StatusUpdate(Some(COMPLETED), Some(err), None))
            && h.response == CompletedResponse(err)
  {
  }

  // ---------------------------------------------------------------- heartbeat flags

  /**
   * start_heartbeat: a new thread is started, and is_running set, only when
   * there is no thread or the old one has ended; otherwise nothing changes.
   */
  function StartHeartbeatStep(h: Heart): (r: Heart)
    ensures r.thread == Alive
    ensures r.isRunning <==> h.isRunning || h.thread != Alive
    ensures h.thread == Alive ==> r == h
  {
    if h.thread != Alive then Heart(true, Alive) else h
  }

  /**
   * stop_heartbeat: is_running is cleared, then the thread, if any, is joined
   * for at most five seconds; `joined` says whether it ended within that time.
   */
  function StopHeartbeatStep(h: Heart, joined: bool): (r: Heart)
    ensures !r.isRunning
    ensures r.thread == NoThread <==> h.thread == NoThread
    ensures r.thread == Alive <==> h.thread == Alive && !joined
  {
    if h.thread == Alive && joined then Heart(false, Finished) else h.(isRunning := false)
  }

  /**
   * One test of the heartbeat loop's condition by the live thread: while
   * is_running holds it sends a heartbeat and sleeps, otherwise it ends.
   */
  function TickStep(h: Heart): (r: Heart)
    requires h.thread == Alive
    ensures r.isRunning == h.isRunning
    ensures r.thread == Alive <==> h.isRunning
    ensures r.thread == Finished <==> !h.isRunning
  {
    if h.isRunning then h else h.(thread := Finished)
  }

  /**
   * Stopping a running agent and starting it again while the old thread is
   * still asleep (the join gives up after five seconds, the loop sleeps for
   * thirty) leaves is_running cleared: the old thread ends at its next test
   * and no heartbeat is sent any more, although start reported success.
   */
  lemma RestartInsideJoinWindow(h: Heart)
    requires h == Heart(true, Alive)
    ensures var restarted := StartHeartbeatStep(StopHeartbeatStep(h, false));
            && restarted == Heart(false, Alive)
            && TickStep(restarted) == Heart(false, Finished)
  {
  }

  /** A stop whose join completes, followed by a start, does resume the heartbeat. */
  lemma RestartAfterJoin(h: Heart)
    requires h.thread == Alive
    ensures StartHeartbeatStep(StopHeartbeatStep(h, true)) == Heart(true, Alive)
  {
  }

  // ---------------------------------------------------------------- the agent object

  class McpAgent {
    const agentId: string
    const name: string
    const description: string
    const agentPort: nat
    const capabilities: seq<string>
    const supportedTaskTypes: seq<string>
    const execute: (string, string, Json) -> ExecOutcome

    var isRunning: bool
    var thread: ThreadState

    /** Every request sent to the coordinator, in order. */
    ghost var upstream: seq<Call>
    /** The task ids the executor was run for, in order. */
    ghost var executed: seq<string>

    function HeartState(): Heart
      reads this
    {
      Heart(isRunning, thread)
    }

    /**
     * A new agent is not running and has no heartbeat thread; the port
     * defaults to 5001 and capabilities default to the empty list.
     */
    constructor (agentId: string, name: string, description: string, agentPort: Option<nat>,
                 capabilities: Option<seq<string>>, supportedTaskTypes: seq<string>,
                 execute: (string, string, Json) -> ExecOutcome)
      ensures this.agentId == agentId && this.name == name && this.description == description
      ensures this.agentPort == if agentPort.Some? then agentPort.value else DEFAULT_AGENT_PORT
      ensures this.supportedTaskTypes == supportedTaskTypes
      ensures this.execute == execute
      ensures this.capabilities == if capabilities.Some? then capabilities.value else []
      ensures !isRunning && thread == NoThread
      ensures upstream == [] && executed == []
    {
      this.agentId, this.name, this.description := agentId, name, description;
      this.agentPort := if agentPort.Some? then agentPort.value else DEFAULT_AGENT_PORT;
      this.capabilities := if capabilities.Some? then capabilities.value else [];
      this.supportedTaskTypes, this.execute := supportedTaskTypes, execute;
      isRunning, thread := false, NoThread;
      upstream, executed := [], [];
    }

    /** register_with_mcp: posts the registration body; succeeds exactly on a 201 reply. */
    method RegisterWithMcp(reply: HttpOutcome) returns (ok: bool)
      modifies this
      ensures ok <==> reply == Answered(201)
      ensures upstream == old(upstream) + [RegisterCall(RegistrationBody(agentId, name, description, agentPort, capabilities))]
      ensures HeartState() == old(HeartState()) && executed == old(executed)
    {
      upstream := upstream + [RegisterCall(RegistrationBody(agentId, name, description, agentPort, capabilities))];
      ok := reply.Answered? && reply.code == 201;
    }

    /** send_heartbeat: one POST, whatever the reply. */
    method SendHeartbeat()
      modifies this
      ensures upstream == old(upstream) + [HeartbeatCall(agentId)]
      ensures HeartState() == old(HeartState()) && executed == old(executed)
    {
      upstream := upstream + [HeartbeatCall(agentId)];
    }

    /** One pass of the heartbeat thread's loop; `continues` is false when the thread ends. */
    method HeartbeatTick() returns (continues: bool)
      requires thread == Alive
      modifies this
      ensures continues == old(isRunning)
      ensures HeartState() == TickStep(old(HeartState()))
      ensures upstream == old(upstream) + (if continues then [HeartbeatCall(agentId)] else [])
      ensures executed == old(executed)
    {
      continues := isRunning;
      if isRunning {
        SendHeartbeat();
      } else {
        thread := Finished;
      }
    }

    method StartHeartbeat()
      modifies this
      ensures HeartState() == StartHeartbeatStep(old(HeartState()))
      ensures upstream == old(upstream) && executed == old(executed)
    {
      if thread != Alive {
        isRunning := true;
        thread := Alive;
      }
    }

    method StopHeartbeat(joined: bool)
      modifies this
      ensures HeartState() == StopHeartbeatStep(old(HeartState()), joined)
      ensures upstream == old(upstream) && executed == old(executed)
    {
      isRunning := false;
      if thread == Alive && joined {
        thread := Finished;
      }
    }

    /** unregister_from_mcp: one DELETE, whatever the reply. */
    method UnregisterFromMcp()
      modifies this
      ensures upstream == old(upstream) + [UnregisterCall(agentId)]
      ensures HeartState() == old(HeartState()) && executed == old(executed)
    {
      upstream := upstream + [UnregisterCall(agentId)];
    }

    /** update_task_status: one PUT with the payload built from the non-None arguments. */
    method UpdateTaskStatus(taskId: string, status: string, result: Json, errorMessage: Option<string>)
      modifies this
      ensures upstream == old(upstream) + [Report(taskId, status, result, errorMessage)]
      ensures HeartState() == old(HeartState()) && executed == old(executed)
    {
      upstream := upstream + [StatusCall(taskId, StatusPayload(status, result, errorMessage))];
    }

    /** handle_task_request, as HandleTask describes it. */
    method HandleTaskRequest(body: Option<TaskRequest>) returns (resp: Response)
      modifies this
      ensures var h := HandleTask(body, supportedTaskTypes, execute);
              && resp == h.response
              && upstream == old(upstream) + h.calls
              && executed == old(executed) + (if h.invoked then [body.value.taskId.value] else [])
      ensures HeartState() == old(HeartState())
    {
      if body.None? {
        return ErrorResponse(INTERNAL_ERROR);
      }
      var req := body.value;
      if !Present(req.taskId) || !Present(req.taskType) {
        return ErrorResponse(MISSING_FIELDS);
      }
      var id, ty := req.taskId.value, req.taskType.value;
      var parameters := ParametersOf(req);
      if ty !in supportedTaskTypes {
        var msg := "Unsupported task type: " + ty;
        UpdateTaskStatus(id, FAILED, JNull, Some(msg));
        return ErrorResponse(msg);
      }
      UpdateTaskStatus(id, RUNNING, JNull, None);
      executed := executed + [id];
      var outcome := execute(id, ty, parameters);
      match outcome {
        case Returned(result) =>
          UpdateTaskStatus(id, COMPLETED, result, None);
          resp := CompletedResponse(result);
        case Raised(m) =>
          var msg := "Task execution failed: " + m;
          UpdateTaskStatus(id, FAILED, JNull, Some(msg));
          resp := ErrorResponse(msg);
      }
    }

    /** start: registers, and starts the heartbeat only when registration succeeded. */
    method Start(reply: HttpOutcome) returns (ok: bool)
      modifies this
      ensures ok <==> reply == Answered(201)
      ensures HeartState() == if ok then StartHeartbeatStep(old(HeartState())) else old(HeartState())
      ensures upstream == old(upstream) + [RegisterCall(RegistrationBody(agentId, name, description, agentPort, capabilities))]
      ensures executed == old(executed)
    {
      ok := RegisterWithMcp(reply);
      if ok {
        StartHeartbeat();
      }
    }

    /** stop: clears is_running and joins the thread, then unregisters. */
    method Stop(joined: bool)
      modifies this
      ensures HeartState() == StopHeartbeatStep(old(HeartState()), joined)
      ensures !isRunning
      ensures upstream == old(upstream) + [UnregisterCall(agentId)]
      ensures executed == old(executed)
    {
      StopHeartbeat(joined);
      UnregisterFromMcp();
    }
  }
}
