/**
 * GET /system/status: counts of agents and tasks by status. The agent total
 * is the sum of the active, inactive and error counts only; the task total is
 * the sum of the pending, running, completed and failed counts only, so a
 * cancelled task (or one with any other status string) is in no total.
 */
module SystemStatus {
  import opened Records

  function AgentsWith(agents: map<string, Agent>, status: string): set<string> {
    set k | k in agents && agents[k].status == status
  }

  function TasksWith(tasks: map<string, Task>, status: string): set<string> {
    set k | k in tasks && tasks[k].status == status
  }

  predicate CountedAgentStatus(s: string) {
    s == ACTIVE || s == INACTIVE || s == ERROR
  }

  predicate CountedTaskStatus(s: string) {
    s == PENDING || s == RUNNING || s == COMPLETED || s == FAILED
  }

  function CountedAgents(agents: map<string, Agent>): set<string> {
    set k | k in agents && CountedAgentStatus(agents[k].status)
  }

  function CountedTasks(tasks: map<string, Task>): set<string> {
    set k | k in tasks && CountedTaskStatus(tasks[k].status)
  }

  datatype AgentCounts = AgentCounts(active: nat, inactive: nat, error: nat, total: nat)
  datatype TaskCounts = TaskCounts(pending: nat, running: nat, completed: nat, failed: nat, total: nat)
  datatype Report = Report(agents: AgentCounts, tasks: TaskCounts, timestamp: nat)

  lemma SubsetCardinality<T>(a: set<T>, b: set<T>)
    requires a <= b
    ensures |a| <= |b|
    ensures |a| == |b| ==> a == b
  {
    assert b == a + (b - a);
    assert a * (b - a) == {};
  }

  lemma DisjointUnionCardinality<T>(a: set<T>, b: set<T>)
    requires a * b == {}
    ensures |a + b| == |a| + |b|
  {
  }

  /** The agent total counts exactly the agents whose status is active, inactive or error. */
  lemma AgentTotalIsCountedAgents(agents: map<string, Agent>)
    ensures |AgentsWith(agents, ACTIVE)| + |AgentsWith(agents, INACTIVE)| + |AgentsWith(agents, ERROR)|
            == |CountedAgents(agents)|
  {
    var a, i, e := AgentsWith(agents, ACTIVE), AgentsWith(agents, INACTIVE), AgentsWith(agents, ERROR);
    assert a * i == {};
    DisjointUnionCardinality(a, i);
    assert (a + i) * e == {};
    DisjointUnionCardinality(a + i, e);
    assert CountedAgents(agents) == a + i + e;
  }

  /** The task total counts exactly the tasks whose status is pending, running, completed or failed. */
  lemma TaskTotalIsCountedTasks(tasks: map<string, Task>)
    ensures |TasksWith(tasks, PENDING)| + |TasksWith(tasks, RUNNING)|
            + |TasksWith(tasks, COMPLETED)| + |TasksWith(tasks, FAILED)|
            == |CountedTasks(tasks)|
  {
    var p, r, c, f := TasksWith(tasks, PENDING), TasksWith(tasks, RUNNING),
                      TasksWith(tasks, COMPLETED), TasksWith(tasks, FAILED);
    assert p * r == {};
    DisjointUnionCardinality(p, r);
    assert (p + r) * c == {};
    DisjointUnionCardinality(p + r, c);
    assert (p + r + c) * f == {};
    DisjointUnionCardinality(p + r + c, f);
    assert CountedTasks(tasks) == p + r + c + f;
  }

  /** get_system_status over the agent and task tables, stamped with the time of the request. */
  function GetSystemStatus(agents: map<string, Agent>, tasks: map<string, Task>, now: nat): (r: Report)
    ensures r.agents.total == |CountedAgents(agents)| <= |agents|
    ensures r.tasks.total == |CountedTasks(tasks)|
    ensures r.tasks.total + |TasksWith(tasks, CANCELLED)| <= |tasks|
    ensures r.agents.active == |AgentsWith(agents, ACTIVE)|
    ensures r.agents.inactive == |AgentsWith(agents, INACTIVE)|
    ensures r.agents.error == |AgentsWith(agents, ERROR)|
    ensures r.tasks.pending == |TasksWith(tasks, PENDING)|
    ensures r.tasks.running == |TasksWith(tasks, RUNNING)|
    ensures r.tasks.completed == |TasksWith(tasks, COMPLETED)|
    ensures r.tasks.failed == |TasksWith(tasks, FAILED)|
    ensures r.timestamp == now
  {
    var active, inactive, error :=
      |AgentsWith(agents, ACTIVE)|, |AgentsWith(agents, INACTIVE)|, |AgentsWith(agents, ERROR)|;
    var pending, running, completed, failed :=
      |TasksWith(tasks, PENDING)|, |TasksWith(tasks, RUNNING)|,
      |TasksWith(tasks, COMPLETED)|, |TasksWith(tasks, FAILED)|;
    AgentTotalIsCountedAgents(agents);
    TaskTotalIsCountedTasks(tasks);
    SubsetCardinality(CountedAgents(agents), agents.Keys);
    assert CountedTasks(tasks) * TasksWith(tasks, CANCELLED) == {};
    DisjointUnionCardinality(CountedTasks(tasks), TasksWith(tasks, CANCELLED));
    SubsetCardinality(CountedTasks(tasks) + TasksWith(tasks, CANCELLED), tasks.Keys);
    Report(AgentCounts(active, inactive, error, active + inactive + error),
           TaskCounts(pending, running, completed, failed, pending + running + completed + failed),
           now)
  }

  /** The agent total equals the number of agents exactly when every status is one of the three counted. */
  lemma AgentTotalCoversAll(agents: map<string, Agent>, now: nat)
    ensures GetSystemStatus(agents, map[], now).agents.total == |agents|
            <==> forall k :: k in agents ==> CountedAgentStatus(agents[k].status)
  {
    SubsetCardinality(CountedAgents(agents), agents.Keys);
    if forall k :: k in agents ==> CountedAgentStatus(agents[k].status) {
      assert CountedAgents(agents) == agents.Keys;
    }
  }

  /**
   * The task total plus the cancelled count equals the number of tasks exactly
   * when every status is one of the five known ones.
   */
  lemma TaskTotalOmitsCancelled(tasks: map<string, Task>, now: nat)
    ensures GetSystemStatus(map[], tasks, now).tasks.total + |TasksWith(tasks, CANCELLED)| == |tasks|
            <==> forall k :: k in tasks ==> CountedTaskStatus(tasks[k].status) || tasks[k].status == CANCELLED
  {
    var counted, cancelled := CountedTasks(tasks), TasksWith(tasks, CANCELLED);
    assert counted * cancelled == {};
    DisjointUnionCardinality(counted, cancelled);
    SubsetCardinality(counted + cancelled, tasks.Keys);
    if forall k :: k in tasks ==> CountedTaskStatus(tasks[k].status) || tasks[k].status == CANCELLED {
      assert counted + cancelled == tasks.Keys;
    }
  }
}
