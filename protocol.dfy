/**
 * Values that cross the wire between the coordinator (MCP) and its agents:
 * optional fields, results, opaque JSON payloads, the request bodies of the
 * coordinator's routes and the outcome of an HTTP call.
 */
module Protocol {

  datatype Option<+T> = None | Some(value: T)

  datatype Result<+T, +E> = Ok(value: T) | Err(error: E)

  /** An opaque JSON payload; the coordinator stores it but never interprets it. */
  datatype Json =
    | JNull
    | JBool(b: bool)
    | JNum(n: int)
    | JStr(s: string)
    | JArr(items: seq<Json>)
    | JObj(fields: map<string, Json>)

  /** The outcome of one HTTP request: a reply with a status code, or a
      transport-level error (refused connection, timeout) with its text. */
  datatype HttpOutcome = Answered(code: nat) | TransportError(detail: string)

  /** Body of POST /agents. A field is None when the key is absent. */
  datatype AgentRegistration = AgentRegistration(
    id: Option<string>,
    name: Option<string>,
    endpoint: Option<string>,
    description: Option<string>,
    capabilities: Option<Json>)

  /** Body of PUT /agents/<id>. */
  datatype AgentUpdate = AgentUpdate(
    name: Option<string>,
    description: Option<string>,
    endpoint: Option<string>,
    capabilities: Option<Json>,
    status: Option<string>)

  /** Body of POST /tasks. */
  datatype TaskCreation = TaskCreation(
    agentId: Option<string>,
    taskType: Option<string>,
    parameters: Option<Json>,
    priority: Option<int>)

  /** Query string of GET /tasks. */
  datatype TaskFilter = TaskFilter(
    agentId: Option<string>,
    status: Option<string>,
    taskType: Option<string>)

  /** Body of PUT /tasks/<task_id>/status: sent by agents, and by any other client. */
  datatype StatusUpdate = StatusUpdate(
    status: Option<string>,
    result: Option<Json>,
    errorMessage: Option<string>)

  /** Body of POST /configuration. */
  datatype ConfigCreation = ConfigCreation(
    key: Option<string>,
    value: Option<string>,
    description: Option<string>)

  /** Body of PUT /configuration/<key>. */
  datatype ConfigUpdate = ConfigUpdate(
    value: Option<string>,
    description: Option<string>)

  predicate IsDigit(c: char) { '0' <= c <= '9' }

  /** The number a string of decimal digits stands for, most significant digit first. */
  function DecValue(s: string): nat
    requires forall i :: 0 <= i < |s| ==> IsDigit(s[i])
  {
    if s == [] then 0
    else
      assert IsDigit(s[|s| - 1]);
      DecValue(s[..|s| - 1]) * 10 + (s[|s| - 1] as int - '0' as int)
  }

  /**
   * Decimal rendering of a natural number, as Python's f-string prints an int:
   * digits only, standing for n, with no leading zero.
   */
  function NatToString(n: nat): (r: string)
    ensures |r| >= 1
    ensures forall i :: 0 <= i < |r| ==> IsDigit(r[i])
    ensures DecValue(r) == n
    ensures r[0] == '0' ==> n == 0
    ensures n < 10 <==> |r| == 1
  {
    var d := [('0' as int + n % 10) as char];
    if n < 10 then d
    else
      var prefix := NatToString(n / 10);
      assert (prefix + d)[..|prefix + d| - 1] == prefix;
      prefix + d
  }
}
