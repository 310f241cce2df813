/**
 * The coordinator's three persisted records (Agent, Task, Configuration),
 * their column defaults, the JSON payload accessors and the dictionary views
 * the routes answer with.
 *
 * A record is a value; a route that changes a row in place is modelled by the
 * store replacing the map entry with the updated value. A payload column
 * (capabilities, parameters, result) holds None when the column is NULL and
 * Some(j) when it holds the serialisation of j; a serialisation is never the
 * empty text, so "the column is truthy" is "the column is Some".
 */
module Records {
  import opened Protocol

  /** Status strings. The columns are free strings: any other value may be stored. */
  const ACTIVE := "active"
  const INACTIVE := "inactive"
  const ERROR := "error"

  const PENDING := "pending"
  const RUNNING := "running"
  const COMPLETED := "completed"
  const FAILED := "failed"
  const CANCELLED := "cancelled"

  const DEFAULT_PRIORITY := 5

  /** The statuses on entry to which a task's completed_at is stamped. */
  predicate IsTerminal(status: string) {
    status == COMPLETED || status == FAILED || status == CANCELLED
  }

  datatype Agent = Agent(
    id: string,
    name: string,
    description: Option<string>,
    endpoint: string,
    capabilities: Option<Json>,
    status: string,
    lastHeartbeat: Option<nat>,
    createdAt: Option<nat>,
    updatedAt: Option<nat>)

  /** createdAt is the store's creation stamp: strictly increasing over creations. */
  datatype Task = Task(
    taskId: string,
    agentId: string,
    taskType: string,
    parameters: Option<Json>,
    status: string,
    result: Option<Json>,
    errorMessage: Option<string>,
    priority: int,
    createdAt: nat,
    startedAt: Option<nat>,
    completedAt: Option<nat>)

  datatype Configuration = Configuration(
    key: string,
    value: string,
    description: Option<string>,
    createdAt: Option<nat>,
    updatedAt: Option<nat>)

  // ---------------------------------------------------------------- payloads

  function GetCapabilities(a: Agent): Json {
    if a.capabilities.Some? then a.capabilities.value else JArr([])
  }

  function GetParameters(t: Task): Json {
    if t.parameters.Some? then t.parameters.value else JObj(map[])
  }

  /** Python's None is JSON null. */
  function GetResult(t: Task): Json {
    if t.result.Some? then t.result.value else JNull
  }

  /** Stores a capability list; reading it back gives the same value and no other column moves. */
  function SetCapabilities(a: Agent, caps: Json): (r: Agent)
    ensures GetCapabilities(r) == caps
    ensures r.capabilities.Some?
    ensures r.(capabilities := a.capabilities) == a
  {
    a.(capabilities := Some(caps))
  }

  /** Stores task parameters; reading them back gives the same value and no other column moves. */
  function SetParameters(t: Task, params: Json): (r: Task)
    ensures GetParameters(r) == params
    ensures r.parameters.Some?
    ensures r.(parameters := t.parameters) == t
  {
    t.(parameters := Some(params))
  }

  /** Stores a task result; reading it back gives the same value and no other column moves. */
  function SetResult(t: Task, res: Json): (r: Task)
    ensures GetResult(r) == res
    ensures r.result.Some?
    ensures r.(result := t.result) == t
  {
    t.(result := Some(res))
  }

  // ---------------------------------------------------------------- new rows

  /** A new Agent row: status defaults to inactive, every timestamp to now. */
  function NewAgent(id: string, name: string, endpoint: string, now: nat): (r: Agent)
    ensures r.id == id && r.name == name && r.endpoint == endpoint
    ensures r.status == INACTIVE
    ensures GetCapabilities(r) == JArr([])
    ensures r.lastHeartbeat == r.createdAt == r.updatedAt == Some(now)
  {
    Agent(id, name, None, endpoint, None, INACTIVE, Some(now), Some(now), Some(now))
  }

  /** A new Task row: pending, priority 5, not started, not completed, no payloads. */
  function NewTask(taskId: string, agentId: string, taskType: string, stamp: nat): (r: Task)
    ensures r.taskId == taskId && r.agentId == agentId && r.taskType == taskType
    ensures r.status == PENDING && r.priority == DEFAULT_PRIORITY
    ensures r.startedAt.None? && r.completedAt.None?
    ensures GetParameters(r) == JObj(map[]) && GetResult(r) == JNull
    ensures r.errorMessage.None? && r.createdAt == stamp
  {
    Task(taskId, agentId, taskType, None, PENDING, None, None, DEFAULT_PRIORITY, stamp, None, None)
  }

  /** A new Configuration row, both timestamps now. */
  function NewConfiguration(key: string, value: string, description: Option<string>, now: nat): (r: Configuration)
    ensures r.key == key && r.value == value && r.description == description
    ensures r.createdAt == r.updatedAt == Some(now)
  {
    Configuration(key, value, description, Some(now), Some(now))
  }

  // ---------------------------------------------------------------- to_dict

  datatype AgentView = AgentView(
    id: string, name: string, description: Option<string>, endpoint: string,
    capabilities: Json, status: string,
    lastHeartbeat: Option<nat>, createdAt: Option<nat>, updatedAt: Option<nat>)

  datatype TaskView = TaskView(
    taskId: string, agentId: string, taskType: string, parameters: Json,
    status: string, result: Json, errorMessage: Option<string>, priority: int,
    createdAt: Option<nat>, startedAt: Option<nat>, completedAt: Option<nat>)

  datatype ConfigurationView = ConfigurationView(
    key: string, value: string, description: Option<string>,
    createdAt: Option<nat>, updatedAt: Option<nat>)

  /** The serialised agent: payload defaults as get_capabilities, absent timestamps as None. */
  function AgentToDict(a: Agent): (v: AgentView)
    ensures v.capabilities == GetCapabilities(a)
    ensures v.lastHeartbeat.None? <==> a.lastHeartbeat.None?
    ensures v.createdAt.None? <==> a.createdAt.None?
    ensures v.updatedAt.None? <==> a.updatedAt.None?
    ensures v.id == a.id && v.status == a.status
    ensures v.name == a.name && v.description == a.description && v.endpoint == a.endpoint
    ensures v.lastHeartbeat == a.lastHeartbeat && v.createdAt == a.createdAt && v.updatedAt == a.updatedAt
  {
    AgentView(a.id, a.name, a.description, a.endpoint, GetCapabilities(a), a.status,
              a.lastHeartbeat, a.createdAt, a.updatedAt)
  }

  /** The serialised task: payload defaults as get_parameters/get_result, absent timestamps as None. */
  function TaskToDict(t: Task): (v: TaskView)
    ensures v.parameters == GetParameters(t) && v.result == GetResult(t)
    ensures v.startedAt.None? <==> t.startedAt.None?
    ensures v.completedAt.None? <==> t.completedAt.None?
    ensures v.createdAt == Some(t.createdAt)
    ensures v.taskId == t.taskId && v.status == t.status && v.priority == t.priority
    ensures v.agentId == t.agentId && v.taskType == t.taskType && v.errorMessage == t.errorMessage
    ensures v.startedAt == t.startedAt && v.completedAt == t.completedAt
  {
    TaskView(t.taskId, t.agentId, t.taskType, GetParameters(t), t.status, GetResult(t),
             t.errorMessage, t.priority, Some(t.createdAt), t.startedAt, t.completedAt)
  }

  function ConfigurationToDict(c: Configuration): (v: ConfigurationView)
    ensures v.key == c.key && v.value == c.value && v.description == c.description
    ensures v.createdAt.None? <==> c.createdAt.None?
    ensures v.updatedAt.None? <==> c.updatedAt.None?
    ensures v.createdAt == c.createdAt && v.updatedAt == c.updatedAt
  {
    ConfigurationView(c.key, c.value, c.description, c.createdAt, c.updatedAt)
  }
}
