# Dashboard-MCP coordination core, modelled in Dafny

Dashboard-MCP is a coordinator (the "MCP") that keeps a registry of AI agents, a ledger of
tasks assigned to them and a table of configuration entries. It dispatches pending tasks to
the agents over HTTP. Each agent extends a common base class: it registers itself, sends
heartbeats from a background thread, and handles dispatched tasks, reporting their progress
back to the ledger.

This project models that core:

- `protocol.dfy` (`Protocol`): the values that cross the wire.
  - The request bodies of the routes. A field is `None` when its key is absent.
  - An opaque JSON payload type.
  - The outcome of an HTTP call: a reply code, or a transport error with its text.
- `records.dfy` (`Records`): the three persisted rows `Agent`, `Task` and `Configuration`.
  - Their column defaults and their payload accessors (`set_*`/`get_*`).
  - Their `to_dict` views.
  - Status columns are free strings, exactly as in the source. The known values are named constants, and any other string may be stored.
- `ledger_updates.dfy` (`LedgerUpdates`): what each route does to one row.
  - Registration, partial updates and heartbeats.
  - Cancellation on unregistration.
  - The status-update edges of the task state machine.
  - The dispatcher's own writes, and configuration entries.
- `task_listing.dfy` (`TaskListing`): `GET /tasks`.
  - The query is built one optional filter at a time.
  - It is run with `ORDER BY priority, created_at`, modelled by insertion into an ordered sequence.
  - The order is total, so the listing is unique.
- `system_status.dfy` (`SystemStatus`): the per-status counts and their totals.
- `coordinator.dfy` (`McpRoutes`): the class `Coordinator`, which holds the agent, task and configuration tables as maps keyed by agent id, task id and configuration key. Every modelled route is a method on it; the loop that cancels an unregistered agent's pending tasks is the module-level method `CancelPending`.
  - Time is a `now` argument that never runs backwards.
  - `uuid4` is a fresh id not yet in the task table.
  - A task's `created_at` is a counter `nextStamp`, which is what makes the listing order total.
  - The agent's answer to a dispatch is an `HttpOutcome` argument.
- `agent_base.dfy` (`AgentBase`): the agent base class `MCPAgent` as the class `McpAgent`.
  - Its `is_running` flag and heartbeat thread are fields.
  - Every request it sends upstream is appended to a ghost trace.
  - The concrete agent's executor (`execute_task`) and its supported types are constructor parameters.
  - The two copies of `mcp_agent_base.py` in the repository are identical, and this one model covers both.
- `interplay.dfy` (`Interplay`): the coordinator and an agent together.
  - The agent's reports are replayed onto a dispatched task.
  - The two writers on one task row.
  - What unregistering does to the counts.
  - An end-to-end run: list, dispatch, report.

Behaviours the proofs bring out, all modelled as the code is written:

- Any status may follow any other.
  - `update_task_status` has no transition guard.
  - So `started_at <= completed_at` holds for a normal run, but it is not an invariant: moving a completed task back to pending and then to running stamps `started_at` after `completed_at` (`LedgerUpdates.StartedAfterCompletedIsReachable`).
- A heartbeat also refreshes the agent's `updated_at`.
  - The column is declared with `onupdate` (ai-dashboard-mcp/src/models/user.py:17), so every UPDATE of the row sets it.
  - So a heartbeat changes `last_heartbeat`, `status` and `updated_at`, and nothing else.
- The dispatcher's failure path leaves `result` as it is; it does not clear it.
  - When the agent has already reported `completed` and the dispatcher's call then times out, the row ends `failed` and still carries the agent's result (`Interplay.LateDispatchFailureKeepsResult`).
- Task creation checks only that `task_type` is present, so it accepts `""`.
  - The agent treats an empty type as missing, so it sends no report.
  - It still answers HTTP 200, so the task stays `running` for good (`Interplay.EmptyTaskTypeNeverSettles`).
- `stop` joins the heartbeat thread for at most five seconds, but the thread sleeps for thirty.
  - A `start` inside that window finds the old thread alive, so it neither starts a new one nor sets `is_running`.
  - The old thread then exits at its next check, and no heartbeat is sent although `start` returned true (`AgentBase.RestartInsideJoinWindow`).

## Model

| member | source | states |
|---|---|---|
| Protocol.NatToString | ai-dashboard-mcp/src/routes/mcp.py:283 | the status code in the dispatcher's diagnostic is printed as a non-empty string of decimal digits whose decimal value is the code, with no leading zero, one digit exactly for codes below 10 |
| Records.SetCapabilities | ai-dashboard-mcp/src/models/user.py:35-41 | capabilities read back as the value stored; no other column changes |
| Records.SetParameters | ai-dashboard-mcp/src/models/user.py:81-87 | parameters read back as the value stored; no other column changes |
| Records.SetResult | ai-dashboard-mcp/src/models/user.py:89-95 | the result reads back as the value stored; no other column changes |
| Records.NewAgent | ai-dashboard-mcp/src/models/user.py:7-17 | a new agent row is `inactive`, reads capabilities as `[]`, and has every timestamp set to now |
| Records.NewTask | ai-dashboard-mcp/src/models/user.py:44-57 | a new task is `pending` with priority 5, not started, not completed, with parameters `{}` and result None |
| Records.NewConfiguration | ai-dashboard-mcp/src/models/user.py:98-105 | a new entry keeps key, value and description, with both timestamps now |
| Records.AgentToDict | ai-dashboard-mcp/src/models/user.py:22-33 | the view carries every column of the row (id, name, description, endpoint, status and the three timestamps as stored, so None exactly when absent) and applies the capability default |
| Records.TaskToDict | ai-dashboard-mcp/src/models/user.py:65-79 | the view carries every column of the row (task id, agent id, task type, status, error message, priority and the timestamps as stored, so None exactly when absent) and applies the parameter and result defaults |
| Records.ConfigurationToDict | ai-dashboard-mcp/src/models/user.py:110-118 | the view carries key, value, description and both timestamps as stored, so None exactly when absent |
| LedgerUpdates.MissingRegistrationField | ai-dashboard-mcp/src/routes/mcp.py:26-30 | id, name and endpoint are checked in that order; the first one absent is reported, and none is reported exactly when all three are present |
| LedgerUpdates.Registered | ai-dashboard-mcp/src/routes/mcp.py:38-48 | a registered agent is `active`, has description as given or `""`, capabilities as given or `[]`, and every timestamp now |
| LedgerUpdates.ApplyAgentUpdate | ai-dashboard-mcp/src/routes/mcp.py:73-85 | exactly the fields present in the body change; id, created_at and last_heartbeat are kept; updated_at becomes now |
| LedgerUpdates.AgentUpdateIdempotent | ai-dashboard-mcp/src/routes/mcp.py:73-85 | applying the same update twice is the same as applying it once at the later time |
| LedgerUpdates.EmptyAgentUpdateOnlyTouches | ai-dashboard-mcp/src/routes/mcp.py:85 | an update body with no fields only refreshes updated_at |
| LedgerUpdates.Beat | ai-dashboard-mcp/src/routes/mcp.py:99-102 | a heartbeat sets last_heartbeat to now and status to `active`, refreshes updated_at (the `onupdate` column), and changes nothing else |
| LedgerUpdates.BeatIdempotent | ai-dashboard-mcp/src/routes/mcp.py:99-102 | liveness is last-write: two heartbeats leave what the later one alone leaves |
| LedgerUpdates.Cancelled | ai-dashboard-mcp/src/routes/mcp.py:118-121 | a cancelled task has status `cancelled`, error "Agent unregistered" and completed_at now, and nothing else changes |
| LedgerUpdates.CancelPendingOf | ai-dashboard-mcp/src/routes/mcp.py:116-121 | same task ids; no pending task of the agent remains; its pending tasks are cancelled; every other task is unchanged |
| LedgerUpdates.CreatedTask | ai-dashboard-mcp/src/routes/mcp.py:181-191 | a created task is `pending`, not started or completed, with priority as given or 5, parameters as given or `{}`, no result and no error |
| LedgerUpdates.ApplyStatusUpdate | ai-dashboard-mcp/src/routes/mcp.py:216-233 | identity fields are kept; started_at changes only on the pending-to-running edge and is then now; completed_at changes only on entry into a terminal status and is then now; result and error_message change exactly when supplied |
| LedgerUpdates.LastStatusWriteWins | ai-dashboard-mcp/src/routes/mcp.py:217-219 | with no transition guard, the later of two status writes decides the status |
| LedgerUpdates.StartedAfterCompletedIsReachable | ai-dashboard-mcp/src/routes/mcp.py:217-224 | the status sequence completed, pending, running leaves started_at after completed_at |
| LedgerUpdates.MarkRunning | ai-dashboard-mcp/src/routes/mcp.py:257-260 | dispatch commits `running` with started_at now, and changes nothing else |
| LedgerUpdates.MarkFailed | ai-dashboard-mcp/src/routes/mcp.py:282-284 | the dispatcher's failure write sets `failed`, the diagnostic and completed_at, and leaves every other column (result included) alone |
| LedgerUpdates.DispatchDiagnostic | ai-dashboard-mcp/src/routes/mcp.py:277-291 | there is no diagnostic exactly when the agent answered 200 |
| LedgerUpdates.Dispatched | ai-dashboard-mcp/src/routes/mcp.py:257-294 | started_at is now and the result is untouched; on 200 the task stays `running` with completed_at untouched; otherwise it is `failed` with a diagnostic and completed_at now |
| LedgerUpdates.DispatchFollowsLedgerEdges | ai-dashboard-mcp/src/routes/mcp.py:257-294 | on a pending task, the dispatcher's direct writes equal the ledger's own status-update edges: running, then failed with the diagnostic |
| LedgerUpdates.MissingConfigField | ai-dashboard-mcp/src/routes/mcp.py:350-351 | a configuration body is rejected exactly when key or value is absent |
| LedgerUpdates.ApplyConfigUpdate | ai-dashboard-mcp/src/routes/mcp.py:380-385 | value and description change only when present; key and created_at are kept; updated_at becomes now |
| LedgerUpdates.ConfigUpdateIdempotent | ai-dashboard-mcp/src/routes/mcp.py:380-385 | applying the same configuration update twice is the same as applying it once at the later time |
| TaskListing.BuildQuery | ai-dashboard-mcp/src/routes/mcp.py:138-150 | the conditions added one by one select exactly the tasks that agree with every non-empty filter value |
| TaskListing.Insert | ai-dashboard-mcp/src/routes/mcp.py:153 | inserting into a (priority, created_at)-ordered sequence keeps it ordered and adds exactly that task |
| TaskListing.RunQuery | ai-dashboard-mcp/src/routes/mcp.py:153 | running a query returns every stored task it selects, each as stored, and only those, in (priority, created_at) order |
| TaskListing.GetTasks | ai-dashboard-mcp/src/routes/mcp.py:133-159 | the listing holds exactly the stored tasks matching every supplied filter, sorted by priority and then created_at |
| TaskListing.OrderedUnique | ai-dashboard-mcp/src/routes/mcp.py:153 | two ordered sequences with the same members are equal: the order is total |
| TaskListing.ListingUnique | ai-dashboard-mcp/src/routes/mcp.py:153 | the listing is determined by the table and the filter alone, whatever order the tasks were created or stored in |
| SystemStatus.AgentTotalIsCountedAgents | ai-dashboard-mcp/src/routes/mcp.py:305-320 | the agent total is the number of agents whose status is active, inactive or error |
| SystemStatus.TaskTotalIsCountedTasks | ai-dashboard-mcp/src/routes/mcp.py:310-327 | the task total is the number of tasks whose status is pending, running, completed or failed |
| SystemStatus.GetSystemStatus | ai-dashboard-mcp/src/routes/mcp.py:300-336 | each of the active, inactive, error, pending, running, completed and failed counts is the number of rows with that status; the totals count exactly the agents and tasks with a counted status; the agent total is at most the number of agents; the task total plus the cancelled tasks is at most the number of tasks; the report carries the request time |
| SystemStatus.AgentTotalCoversAll | ai-dashboard-mcp/src/routes/mcp.py:320 | the agent total equals the number of agents if and only if every agent status is active, inactive or error |
| SystemStatus.TaskTotalOmitsCancelled | ai-dashboard-mcp/src/routes/mcp.py:327 | the task total plus the cancelled count equals the number of tasks if and only if every status is one of the five known ones |
| McpRoutes.Coordinator.constructor | ai-dashboard-mcp/src/models/user.py:9-105 | an empty store, whose tables are keyed by agent id, task id and configuration key |
| McpRoutes.Coordinator.RegisterAgent | ai-dashboard-mcp/src/routes/mcp.py:20-58 | a missing field is rejected as invalid and a duplicate id as a conflict, both with no change to the store; otherwise exactly one agent is added, the registered one |
| McpRoutes.Coordinator.UpdateAgent | ai-dashboard-mcp/src/routes/mcp.py:66-93 | an unknown id changes nothing; otherwise only that agent is replaced, by the partial update |
| McpRoutes.Coordinator.Heartbeat | ai-dashboard-mcp/src/routes/mcp.py:95-108 | an unknown id fails with no change to any record; otherwise only that agent changes, by a heartbeat |
| McpRoutes.CancelPending | ai-dashboard-mcp/src/routes/mcp.py:117-121 | the loop over the agent's pending tasks leaves the table as the cancellation describes |
| McpRoutes.Coordinator.UnregisterAgent | ai-dashboard-mcp/src/routes/mcp.py:110-131 | an unknown id changes nothing; otherwise the agent is removed, its pending tasks are cancelled, and every other task (its running ones included) is kept as it was |
| McpRoutes.Coordinator.GetTasks | ai-dashboard-mcp/src/routes/mcp.py:133-159 | the answer is the unique filtered, ordered listing of the task table |
| McpRoutes.Coordinator.CreateTask | ai-dashboard-mcp/src/routes/mcp.py:161-201 | checked in order: agent_id and task_type present, agent exists, agent active; it succeeds exactly when all hold, adding one pending task under the fresh id with the next creation stamp; a failure changes nothing |
| McpRoutes.Coordinator.UpdateTaskStatus | ai-dashboard-mcp/src/routes/mcp.py:209-242 | an unknown id changes nothing; otherwise only that task changes, by the status update |
| McpRoutes.Coordinator.ExecuteTask | ai-dashboard-mcp/src/routes/mcp.py:244-298 | an unknown, non-pending, or agent-less/inactive-agent task is refused unchanged, in that order; otherwise the task becomes running and, unless the agent answered 200, failed with the diagnostic |
| McpRoutes.Coordinator.GetSystemStatus | ai-dashboard-mcp/src/routes/mcp.py:300-336 | the counts over the current tables |
| McpRoutes.Coordinator.CreateConfiguration | ai-dashboard-mcp/src/routes/mcp.py:344-371 | a missing key or value is invalid and a duplicate key a conflict, both with no change; otherwise exactly one entry is added, with description as given or `""` |
| McpRoutes.Coordinator.UpdateConfiguration | ai-dashboard-mcp/src/routes/mcp.py:373-392 | an unknown key changes nothing; otherwise only that entry changes, by the partial update |
| AgentBase.StatusPayload | ai-dashboard-mcp/src/mcp_agent_base.py:130-135 | the upstream status body always carries the status, carries the result if and only if it is not None, and carries the error message as given |
| AgentBase.CapabilitiesJson | ai-dashboard-mcp/src/mcp_agent_base.py:54 | the capability list is sent as a JSON array of the same strings in the same order |
| AgentBase.RegistrationBody | ai-dashboard-mcp/src/mcp_agent_base.py:49-55 | the registration body carries id, name, description, the capabilities, and the endpoint `http://localhost:<port>` |
| AgentBase.HandleTask | ai-dashboard-mcp/src/mcp_agent_base.py:176-220 | the executor runs exactly for a request with a task id and a supported type; no update is sent before validation; an unsupported type sends one `failed` update; a supported one sends running, then completed with the result or failed with the exception text; the last update agrees with the answer |
| AgentBase.NonRaisingExecutorAlwaysCompletes | ai-dashboard-mcp/src/mcp_agent_base.py:203-210 | only an exception counts as failure: with an executor that never raises, every supported task is reported completed |
| AgentBase.ErrorShapedResultIsCompleted | blog-creation-agent/src/mcp_agent_base.py:205-210 | the error-shaped dictionary `{"status": "error", "message": str(e)}` that the blog agent's executor returns when it catches its own exception (blog-creation-agent/src/blog_creation_agent.py, lines 726-731) is reported upstream as a completed result, whatever the message |
| AgentBase.StartHeartbeatStep | ai-dashboard-mcp/src/mcp_agent_base.py:94-100 | afterwards a heartbeat thread is alive; is_running holds if and only if it held before or no thread was alive |
| AgentBase.StopHeartbeatStep | ai-dashboard-mcp/src/mcp_agent_base.py:102-107 | is_running is cleared; the thread is still alive if and only if it was alive and the bounded join did not see it end |
| AgentBase.TickStep | ai-dashboard-mcp/src/mcp_agent_base.py:88-92 | the heartbeat loop continues exactly while is_running holds and the thread ends otherwise |
| AgentBase.RestartInsideJoinWindow | ai-dashboard-mcp/src/mcp_agent_base.py:94-107 | stop, then start while the old thread sleeps, leaves is_running cleared, and the old thread ends at its next check |
| AgentBase.RestartAfterJoin | ai-dashboard-mcp/src/mcp_agent_base.py:94-106 | stop whose join sees the thread end, then start, leaves a running heartbeat |
| AgentBase.McpAgent.constructor | ai-dashboard-mcp/src/mcp_agent_base.py:19-40 | a new agent is not running, has no thread, has sent nothing, has its port as given or 5001, and has capabilities as given or `[]` |
| AgentBase.DefaultPortEndpoint | ai-dashboard-mcp/src/mcp_agent_base.py:20-53 | an agent built without a port registers the endpoint `http://localhost:5001` |
| AgentBase.McpAgent.RegisterWithMcp | ai-dashboard-mcp/src/mcp_agent_base.py:46-72 | one registration request is sent; it succeeds exactly on a 201 reply |
| AgentBase.McpAgent.SendHeartbeat | ai-dashboard-mcp/src/mcp_agent_base.py:74-86 | one heartbeat request is sent, whatever the reply |
| AgentBase.McpAgent.HeartbeatTick | ai-dashboard-mcp/src/mcp_agent_base.py:88-92 | one loop pass sends a heartbeat and continues if and only if is_running holds |
| AgentBase.McpAgent.StartHeartbeat | ai-dashboard-mcp/src/mcp_agent_base.py:94-100 | the flags move as the start step says, and nothing is sent |
| AgentBase.McpAgent.StopHeartbeat | ai-dashboard-mcp/src/mcp_agent_base.py:102-107 | the flags move as the stop step says, and nothing is sent |
| AgentBase.McpAgent.UnregisterFromMcp | ai-dashboard-mcp/src/mcp_agent_base.py:109-123 | one unregistration request is sent, whatever the reply |
| AgentBase.McpAgent.UpdateTaskStatus | blog-creation-agent/src/mcp_agent_base.py:125-149 | one status request is sent, with the payload built from the arguments that are not None |
| AgentBase.McpAgent.HandleTaskRequest | blog-creation-agent/src/mcp_agent_base.py:176-220 | the answer, the requests sent and the executor runs are those the handling describes (this copy is identical to the coordinator repository's) |
| AgentBase.McpAgent.Start | ai-dashboard-mcp/src/mcp_agent_base.py:222-230 | start reports success exactly on a 201 reply, and touches the heartbeat flags only after a successful registration |
| AgentBase.McpAgent.Stop | ai-dashboard-mcp/src/mcp_agent_base.py:232-236 | is_running is cleared and then one unregistration request is sent |
| Interplay.DispatchPayload | ai-dashboard-mcp/src/routes/mcp.py:262-266 | the dispatcher sends the task id, the task type and the parameters as read back (or `{}`) |
| Interplay.Replay | ai-dashboard-mcp/src/routes/mcp.py:209-242 | the agent's calls, applied in order, never change the task's identity, creation stamp, priority or parameters, and leave the task alone when none is a status update addressed to it or the unregistration of its agent |
| Interplay.UnregisterReplayIsCancellation | ai-dashboard-mcp/src/routes/mcp.py:117-121 | an agent's unregistration replayed onto one of its tasks gives the row unregister_agent leaves in the table: a pending task is cancelled, any other is unchanged |
| Interplay.AgentRegistrationIsAccepted | ai-dashboard-mcp/src/mcp_agent_base.py:49-55 | the agent's registration body passes the registry's checks and yields an active agent at its localhost endpoint with its capabilities |
| Interplay.AgentRunOnDispatchedTask | ai-dashboard-mcp/src/routes/mcp.py:257-279 | a dispatched supported task ends completed with the executor's result, or failed with the exception text; started_at is the dispatch time and is not restamped, so started_at <= completed_at |
| Interplay.UnsupportedTypeFailsDispatchedTask | ai-dashboard-mcp/src/mcp_agent_base.py:195-198 | a dispatched task of an unsupported type is failed by the agent's one report, and the dispatcher leaves it so |
| Interplay.EmptyTaskTypeNeverSettles | ai-dashboard-mcp/src/routes/mcp.py:168-171 | a task created with an empty type is dispatched, gets no report from the agent, and stays running with no completed_at |
| Interplay.LateDispatchFailureKeepsResult | ai-dashboard-mcp/src/routes/mcp.py:281-293 | a dispatch failure after the agent reported completed leaves the task failed, completed at the dispatcher's time, with the agent's result kept |
| Interplay.CancelMovesPending | ai-dashboard-mcp/src/routes/mcp.py:117-121 | unregistering takes the agent's pending tasks out of the pending count |
| Interplay.CancelAddsCancelled | ai-dashboard-mcp/src/routes/mcp.py:117-121 | unregistering adds the agent's pending tasks to the cancelled ones |
| Interplay.CancelShrinksTotal | ai-dashboard-mcp/src/routes/mcp.py:327 | unregistering lowers the task total by the number of tasks it cancels |
| Interplay.UnregisterMovesPendingToCancelled | ai-dashboard-mcp/src/routes/mcp.py:110-131 | with N pending tasks of the agent: pending and total drop by N, cancelled grows by N, running is unchanged |
| Interplay.TwoTaskListing | ai-dashboard-mcp/src/routes/mcp.py:153 | two matching tasks list in (priority, created_at) order |
| Interplay.ListDispatchComplete | ai-dashboard-mcp/src/routes/mcp.py:133-298 | register a1 and create t1 (priority 5) and t2 (priority 1); a1's listing is [t2, t1]; dispatching t2, then reporting running and completed with `{"ok": true}`, leaves t2 completed with that result and started_at <= completed_at |

## Left out

- JSON encoding and decoding: payloads are an opaque JSON value, stored as it is given. A value that cannot be serialised is not modelled.
- Request bodies whose fields are not strings are not modelled. Neither is a field present with JSON null where a string or an integer is expected (the description on registration, the error message, the priority). Neither is a body that is not an object on the coordinator's side.
- HTTP status codes and Flask/SQLAlchemy plumbing (jsonify, routing, sessions, commits) are not modelled; failures are abstract error kinds.
  - An unknown id in a route that calls `get_or_404` inside its `try` is answered 500 by the catch-all handler, not 404.
  - The model reports that case as `NotFound` with no state change.
- The plain reads `get_agents`, `get_agent`, `get_task` and `get_configurations` are not modelled. They only serialise rows through the `to_dict` views, which are modelled.
- The `User` model is not modelled: the coordinator never uses it.
- The integer surrogate keys (`Task.id`, `Configuration.id`) are not modelled. Tasks are keyed by `task_id` and entries by `key`.
- The ORM's handling of the removed agent's remaining tasks is not modelled: those tasks are kept as they are, still naming the removed agent.
- Rows updated in place are modelled as map entries replaced by the updated value. There is no aliasing between rows.
- Interplay.Replay: the unregistration of a task's agent is replayed as the cancellation of that task when it is pending; the case of an agent already removed (answered 500 by `get_or_404` inside the `try`, with no change) is not distinguished, since one task row does not show whether its agent is still registered.
- Concurrency is not modelled: the heartbeat thread, the threaded HTTP servers, and the interleaving of the dispatcher with an agent's reports.
  - Interleavings are modelled only as sequences of whole ledger calls (`Interplay`).
  - A heartbeat thread is modelled by one loop check at a time (`HeartbeatTick`), and its 30-second sleep is not modelled.
- The network is not modelled.
  - The coordinator's call to the agent is an `HttpOutcome` input.
  - The agent's requests to the coordinator are entries of a ghost trace.
  - The agent's replies to those requests only feed log lines, except registration's, which is an input.
- Wall-clock time and `uuid4` are not modelled: time is a `now` argument and a task id is a fresh-id argument.
- Logging is not modelled.
- The outer "Internal agent error" answer of `handle_task_request` is modelled only for a body that is not a JSON object.
  - An exception raised inside an upstream report is not modelled: only transport errors are caught there, and the reports are modelled as always sent.
- `SimpleFlaskAgent` (the agent's HTTP endpoints `/execute`, `/health` and `/capabilities`) is not modelled beyond the fact that `/execute` answers 200 for every handled request (`Interplay`).
- The concrete agents' executors (the blog agent and the news/market agent) are not modelled: they are an arbitrary function parameter.
- AgentBase.McpAgent.Stop: the order inside `stop` (clear `is_running`, join, then unregister) is not observable in a sequential model. The ensures states only the final flags and the one request sent.
- McpRoutes.Coordinator.ExecuteTask: the call to the agent is modelled as atomic, with the agent's own reports applied before or after it (`Interplay`), not inside it.
