/**
 * GET /tasks: the query is built one optional filter at a time, then run with
 * ORDER BY priority ascending, created_at ascending. Creation stamps are
 * distinct, so that order is total and the listing is unique.
 */
module TaskListing {
  import opened Protocol
  import opened Records

  /** One filter_by condition of the query. */
  datatype Condition = AgentIs(agentId: string) | StatusIs(status: string) | TypeIs(taskType: string)

  predicate Holds(t: Task, c: Condition) {
    match c
    case AgentIs(a) => t.agentId == a
    case StatusIs(s) => t.status == s
    case TypeIs(ty) => t.taskType == ty
  }

  /** A query is the conjunction of its conditions; the empty query selects every task. */
  predicate Selects(q: seq<Condition>, t: Task) {
    forall i :: 0 <= i < |q| ==> Holds(t, q[i])
  }

  /** A query-string value filters only when it is present and not empty. */
  predicate Applies(v: Option<string>) {
    v.Some? && v.value != ""
  }

  /** The tasks a filter asks for: those that agree with every supplied value. */
  predicate Matches(t: Task, f: TaskFilter) {
    && (Applies(f.agentId) ==> t.agentId == f.agentId.value)
    && (Applies(f.status) ==> t.status == f.status.value)
    && (Applies(f.taskType) ==> t.taskType == f.taskType.value)
  }

  /** (priority, created_at) ascending. */
  predicate Before(a: Task, b: Task) {
    a.priority < b.priority || (a.priority == b.priority && a.createdAt < b.createdAt)
  }

  predicate Ordered(s: seq<Task>) {
    forall i, j :: 0 <= i < j < |s| ==> Before(s[i], s[j])
  }

  /** Each task is stored under its own task_id. */
  predicate Keyed(ts: map<string, Task>) {
    forall k :: k in ts ==> ts[k].taskId == k
  }

  /** No two stored tasks share a creation stamp. */
  predicate DistinctStamps(ts: map<string, Task>) {
    forall k1, k2 :: k1 in ts && k2 in ts && k1 != k2 ==> ts[k1].createdAt != ts[k2].createdAt
  }

  /** r lists exactly the stored tasks matching f, each once, in (priority, created_at) order. */
  predicate IsListing(ts: map<string, Task>, f: TaskFilter, r: seq<Task>) {
    && Ordered(r)
    && (forall x :: x in r ==> x.taskId in ts && ts[x.taskId] == x && Matches(x, f))
    && (forall k :: k in ts && Matches(ts[k], f) ==> ts[k] in r)
  }

  lemma OrderedCons(x: Task, s: seq<Task>)
    requires Ordered(s)
    requires forall y :: y in s ==> Before(x, y)
    ensures Ordered([x] + s)
  {
  }

  lemma HeadBeforeAll(x: Task, s: seq<Task>)
    requires Ordered(s) && s != [] && Before(x, s[0])
    ensures forall y :: y in s ==> Before(x, y)
  {
  }

  lemma FirstBeforeInserted(s: seq<Task>, t: Task, rest: seq<Task>)
    requires Ordered(s) && s != []
    requires !Before(t, s[0]) && t.createdAt != s[0].createdAt
    requires multiset(rest) == multiset(s[1..]) + multiset{t}
    ensures forall y :: y in rest ==> Before(s[0], y)
  {
    forall y | y in rest ensures Before(s[0], y) {
      assert y in multiset(rest);
      if y != t {
        assert y in multiset(s[1..]);
        var j :| 1 <= j < |s| && s[j] == y;
        assert Before(s[0], s[j]);
      }
    }
  }

  /** Inserts t at its place in an ordered sequence; t's stamp differs from every stamp there. */
  function Insert(s: seq<Task>, t: Task): (r: seq<Task>)
    requires Ordered(s)
    requires forall x :: x in s ==> x.createdAt != t.createdAt
    ensures Ordered(r)
    ensures multiset(r) == multiset(s) + multiset{t}
  {
    if s == [] then [t]
    else if Before(t, s[0]) then
      HeadBeforeAll(t, s);
      OrderedCons(t, s);
      [t] + s
    else
      assert s == [s[0]] + s[1..];
      var rest := Insert(s[1..], t);
      FirstBeforeInserted(s, t, rest);
      OrderedCons(s[0], rest);
      [s[0]] + rest
  }

  lemma SelectsSnoc(q: seq<Condition>, c: Condition)
    ensures forall t :: Selects(q + [c], t) <==> Selects(q, t) && Holds(t, c)
  {
    forall t ensures Selects(q + [c], t) <==> Selects(q, t) && Holds(t, c) {
      var qc := q + [c];
      if Selects(q, t) && Holds(t, c) {
        forall i | 0 <= i < |qc| ensures Holds(t, qc[i]) {
          if i < |q| {
            assert qc[i] == q[i];
          }
        }
      }
      if Selects(qc, t) {
        assert Holds(t, qc[|q|]);
        forall i | 0 <= i < |q| ensures Holds(t, q[i]) {
          assert qc[i] == q[i];
        }
      }
    }
  }

  /** The query the route builds from its filter, one condition per supplied value. */
  method BuildQuery(f: TaskFilter) returns (q: seq<Condition>)
    ensures forall t :: Selects(q, t) <==> Matches(t, f)
  {
    q := [];
    if Applies(f.agentId) {
      SelectsSnoc(q, AgentIs(f.agentId.value));
      q := q + [AgentIs(f.agentId.value)];
    }
    assert forall t :: Selects(q, t) <==> (Applies(f.agentId) ==> t.agentId == f.agentId.value);
    ghost var q1 := q;
    if Applies(f.status) {
      SelectsSnoc(q, StatusIs(f.status.value));
      q := q + [StatusIs(f.status.value)];
    }
    assert forall t :: Selects(q, t) <==> Selects(q1, t) && (Applies(f.status) ==> t.status == f.status.value);
    ghost var q2 := q;
    if Applies(f.taskType) {
      SelectsSnoc(q, TypeIs(f.taskType.value));
      q := q + [TypeIs(f.taskType.value)];
    }
    assert forall t :: Selects(q, t) <==> Selects(q2, t) && (Applies(f.taskType) ==> t.taskType == f.taskType.value);
  }

  /** Runs a query against the task table: the selected rows, in ORDER BY order. */
  method RunQuery(ts: map<string, Task>, q: seq<Condition>) returns (r: seq<Task>)
    requires Keyed(ts) && DistinctStamps(ts)
    ensures Ordered(r)
    ensures forall x :: x in r ==> x.taskId in ts && ts[x.taskId] == x && Selects(q, x)
    ensures forall k :: k in ts && Selects(q, ts[k]) ==> ts[k] in r
  {
    r := [];
    var todo := ts.Keys;
    while todo != {}
      invariant todo <= ts.Keys
      invariant Ordered(r)
      invariant forall x :: x in r ==> x.taskId in ts && x.taskId !in todo && ts[x.taskId] == x && Selects(q, x)
      invariant forall k :: k in ts && k !in todo && Selects(q, ts[k]) ==> ts[k] in r
      decreases |todo|
    {
      var k :| k in todo;
      todo := todo - {k};
      if Selects(q, ts[k]) {
        var before := r;
        r := Insert(r, ts[k]);
        assert forall x :: x in r <==> x in before || x == ts[k] by {
          assert forall x :: x in r <==> x in multiset(r);
          assert forall x :: x in before <==> x in multiset(before);
        }
      }
    }
  }

  /** get_tasks: the filtered, ordered listing. */
  method GetTasks(ts: map<string, Task>, f: TaskFilter) returns (r: seq<Task>)
    requires Keyed(ts) && DistinctStamps(ts)
    ensures IsListing(ts, f, r)
  {
    var q := BuildQuery(f);
    r := RunQuery(ts, q);
  }

  /** An ordered sequence lists no task twice. */
  lemma OrderedDistinct(s: seq<Task>, i: int, j: int)
    requires Ordered(s) && 0 <= i < j < |s|
    ensures s[i] != s[j]
  {
  }

  lemma HeadIsMember(s: seq<Task>)
    ensures s != [] ==> s[0] in s
  {
  }

  /**
   * The order is total on the listing: two ordered sequences with the same
   * elements are equal. So whatever order tasks were created or stored in,
   * a listing reproduces one and the same sequence.
   */
  lemma {:induction false} OrderedUnique(a: seq<Task>, b: seq<Task>)
    requires Ordered(a) && Ordered(b)
    requires forall x :: x in a <==> x in b
    ensures a == b
    decreases |a|
  {
    if a == [] {
      HeadIsMember(b);
    } else {
      assert a[0] in a && a[0] in b;
      assert b != [] && b[0] in b && b[0] in a;
      var a0, b0 := a[0], b[0];
      var j :| 0 <= j < |b| && b[j] == a0;
      var i :| 0 <= i < |a| && a[i] == b0;
      assert j > 0 ==> Before(b0, a0);
      assert i > 0 ==> Before(a0, b0);
      assert a0 == b0;
      forall x ensures x in a[1..] <==> x in b[1..] {
        if x in a[1..] {
          var i :| 1 <= i < |a| && a[i] == x;
          OrderedDistinct(a, 0, i);
          assert x in b && x != b[0];
        }
        if x in b[1..] {
          var j :| 1 <= j < |b| && b[j] == x;
          OrderedDistinct(b, 0, j);
          assert x in a && x != a[0];
        }
      }
      OrderedUnique(a[1..], b[1..]);
    }
  }

  /** The listing a filter asks for is determined by the table and the filter alone. */
  lemma ListingUnique(ts: map<string, Task>, f: TaskFilter, r1: seq<Task>, r2: seq<Task>)
    requires Keyed(ts)
    requires IsListing(ts, f, r1) && IsListing(ts, f, r2)
    ensures r1 == r2
  {
    forall x ensures x in r1 <==> x in r2 {
      if x in r1 {
        var i :| 0 <= i < |r1| && r1[i] == x;
        assert ts[x.taskId] in r2;
      }
      if x in r2 {
        var i :| 0 <= i < |r2| && r2[i] == x;
        assert ts[x.taskId] in r1;
      }
    }
    OrderedUnique(r1, r2);
  }
}
