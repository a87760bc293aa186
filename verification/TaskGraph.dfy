/** Validation of the whole dependency graph of a team's tasks, and what an accepted graph guarantees. */
module TaskGraphs {
  import opened Wrappers
  import opened Identities
  import opened Keyed
  import opened Digraphs

  /** `task-<digits>` ids carry a number, written with some leading zeros; every other id is only text. */
  datatype TaskId = Numbered(number: nat, zeros: nat) | Named(text: Text)

  datatype Status = Pending | InProgress | Completed | Deleted

  datatype WorkflowBinding = WorkflowBinding(executionId: Text, stepId: Text, inputs: seq<Text>)

  datatype FactoryBinding = FactoryBinding(executionId: Text, stepId: Text, admission: Text)

  datatype Task = Task(
    id: TaskId,
    revision: nat,
    subject: Text,
    description: Text,
    nonCodeCriteria: Option<Text>,
    reviewGate: Option<Text>,
    workflow: Option<WorkflowBinding>,
    factory: Option<FactoryBinding>,
    review: Option<Text>,
    status: Status,
    ownerId: Option<Text>,
    blockedBy: seq<TaskId>,
    writeScopes: seq<Text>,
    result: Option<Text>)
  {
    predicate Active() {
      status != Deleted
    }

    predicate Unfinished() {
      status == Pending || status == InProgress
    }
  }

  type Tasks = map<TaskId, Task>

  function IdOf(t: Task): TaskId {
    t.id
  }

  function ById(tasks: seq<Task>): Tasks {
    Index(tasks, IdOf)
  }

  // ----- What the validator promises -----

  predicate Alive(m: Tasks, id: TaskId) {
    id in m && m[id].Active()
  }

  predicate SelfBlocked(t: Task) {
    t.id in t.blockedBy
  }

  predicate Repeats(t: Task) {
    exists i, j :: 0 <= i < j < |t.blockedBy| && t.blockedBy[i] == t.blockedBy[j]
  }

  predicate Dangling(m: Tasks, t: Task) {
    exists b :: b in t.blockedBy && !Alive(m, b)
  }

  predicate BlockersOk(m: Tasks, t: Task) {
    !SelfBlocked(t) && !Repeats(t) && !Dangling(m, t)
  }

  function Dependencies(m: Tasks): Graph<TaskId> {
    map id | id in m && m[id].Active() :: m[id].blockedBy
  }

  /** Every active task's blockers are distinct, active and not itself, and no task waits for itself. */
  ghost predicate GraphOk(m: Tasks) {
    && (forall id :: Alive(m, id) ==> BlockersOk(m, m[id]))
    && Acyclic(Dependencies(m))
  }

  datatype Violation = Missing | Duplicate | Cyclic

  /** Each violation is reported only for a defect that is there. */
  ghost predicate Justified(m: Tasks, violation: Violation) {
    match violation
    case Missing => exists id :: Alive(m, id) && Dangling(m, m[id])
    case Duplicate => exists id :: Alive(m, id) && Repeats(m[id])
    case Cyclic => !Acyclic(Dependencies(m))
  }

  lemma SelfBlockedIsCyclic(m: Tasks, id: TaskId)
    requires Alive(m, id) && m[id].id == id && SelfBlocked(m[id])
    ensures !Acyclic(Dependencies(m))
  {
    var g := Dependencies(m);
    assert Edge(g, id, id);
    assert Cycle(g, [id, id]);
  }

  // ----- The validator -----

  method CheckBlockers(m: Tasks, t: Task) returns (violation: Option<Violation>)
    ensures violation.None? <==> BlockersOk(m, t)
    ensures violation == Some(Cyclic) ==> SelfBlocked(t)
    ensures violation == Some(Duplicate) ==> Repeats(t)
    ensures violation == Some(Missing) ==> Dangling(m, t)
  {
    var seen: set<TaskId> := {};
    for i := 0 to |t.blockedBy|
      invariant forall b :: b in seen <==> b in t.blockedBy[..i]
      invariant forall b :: b in t.blockedBy[..i] ==> b != t.id && Alive(m, b)
      invariant forall j, k :: 0 <= j < k < i ==> t.blockedBy[j] != t.blockedBy[k]
    {
      var b := t.blockedBy[i];
      if b == t.id {
        return Some(Cyclic);
      }
      if b in seen {
        return Some(Duplicate);
      }
      if b !in m || m[b].status == Deleted {
        assert b in t.blockedBy && !Alive(m, b);
        return Some(Missing);
      }
      seen := seen + {b};
    }
    assert t.blockedBy == t.blockedBy[..|t.blockedBy|];
    violation := None;
  }

  /** The graph after replacing one snapshot is accepted exactly when it is sound. */
  method AssertTaskGraphCandidate(current: seq<Task>, candidate: Task) returns (violation: Option<Violation>)
    ensures violation.None? <==> GraphOk(ById(current)[candidate.id := candidate])
    ensures violation.Some? ==> Justified(ById(current)[candidate.id := candidate], violation.value)
  {
    var tasks: Tasks := map[];
    var order: seq<TaskId> := [];
    for i := 0 to |current|
      invariant tasks == ById(current[..i])
      invariant forall id :: id in tasks <==> id in order
    {
      assert current[..i + 1][..i] == current[..i];
      if current[i].id !in tasks {
        order := order + [current[i].id];
      }
      tasks := tasks[current[i].id := current[i]];
    }
    assert current[..|current|] == current;
    if candidate.id !in tasks {
      order := order + [candidate.id];
    }
    tasks := tasks[candidate.id := candidate];
    violation := CheckTasks(tasks, order);
  }

  method CheckTasks(tasks: Tasks, order: seq<TaskId>) returns (violation: Option<Violation>)
    requires forall id :: id in tasks <==> id in order
    requires forall id :: id in tasks ==> tasks[id].id == id
    ensures violation.None? <==> GraphOk(tasks)
    ensures violation.Some? ==> Justified(tasks, violation.value)
  {
    for i := 0 to |order|
      invariant forall k :: 0 <= k < i && tasks[order[k]].Active() ==> BlockersOk(tasks, tasks[order[k]])
    {
      if tasks[order[i]].status != Deleted {
        violation := CheckBlockers(tasks, tasks[order[i]]);
        if violation.Some? {
          assert Alive(tasks, order[i]);
          if violation == Some(Cyclic) {
            SelfBlockedIsCyclic(tasks, order[i]);
          }
          return;
        }
      }
    }
    var acyclic := CheckAcyclic(Dependencies(tasks), order);
    violation := if acyclic then None else Some(Cyclic);
  }

  // ----- What an accepted graph guarantees -----

  predicate Ready(m: Tasks, t: Task) {
    forall b :: b in t.blockedBy ==> b in m && m[b].status == Completed
  }

  /** Work never deadlocks: while some active task is unfinished, one of them has only completed blockers. */
  lemma SomeTaskIsReady(m: Tasks)
    requires GraphOk(m)
    requires exists id :: id in m && m[id].Unfinished()
    ensures exists id :: id in m && m[id].Unfinished() && Ready(m, m[id])
  {
    var g := Dependencies(m);
    var unfinished := set id | id in m && m[id].Unfinished();
    var some :| some in m && m[some].Unfinished();
    assert some in unfinished;
    var u := IndependentNode(g, unfinished);
    forall b | b in m[u].blockedBy ensures b in m && m[b].status == Completed {
      assert Alive(m, u) && !Dangling(m, m[u]);
      assert Edge(g, u, b);
    }
    assert Ready(m, m[u]);
  }

  /** Replacing a snapshot by one with the same blockers, both active, never changes the graph. */
  lemma SameGraph(m: Tasks, t: Task)
    requires GraphOk(m) && Alive(m, t.id) && t.Active() && t.blockedBy == m[t.id].blockedBy && m[t.id].id == t.id
    ensures GraphOk(m[t.id := t])
  {
    var after := m[t.id := t];
    assert Dependencies(after) == Dependencies(m);
    forall id | Alive(after, id) ensures BlockersOk(after, after[id]) {
      assert Alive(m, id) && BlockersOk(m, m[id]);
      assert !Dangling(m, m[id]);
      forall b | b in after[id].blockedBy ensures Alive(after, b) {
        assert Alive(m, b);
      }
    }
  }

  lemma SubgraphAcyclic(g: Graph<TaskId>, h: Graph<TaskId>)
    requires Acyclic(g) && forall a, b :: Edge(h, a, b) ==> Edge(g, a, b)
    ensures Acyclic(h)
  {
    forall p: seq<TaskId> | Cycle(h, p) ensures false {
      assert Cycle(g, p);
    }
  }

  /** Deleting a task that blocks no other active task never harms the graph. */
  lemma DeleteKeeps(m: Tasks, t: Task)
    requires GraphOk(m) && t.status == Deleted
    requires forall id :: Alive(m, id) && id != t.id ==> t.id !in m[id].blockedBy
    ensures GraphOk(m[t.id := t])
  {
    var after := m[t.id := t];
    forall a, b | Edge(Dependencies(after), a, b) ensures Edge(Dependencies(m), a, b) {
      assert a != t.id;
    }
    SubgraphAcyclic(Dependencies(m), Dependencies(after));
    forall id | Alive(after, id) ensures BlockersOk(after, after[id]) {
      assert Alive(m, id) && BlockersOk(m, m[id]) && id != t.id;
      forall b | b in after[id].blockedBy ensures Alive(after, b) {
        assert Alive(m, b);
      }
    }
  }

  /** A cycle never passes through a node that nothing depends on. */
  lemma CycleAvoids(g: Graph<TaskId>, h: Graph<TaskId>, added: TaskId, p: seq<TaskId>)
    requires forall a, b :: Edge(h, a, b) ==> b != added && (a != added ==> Edge(g, a, b))
    requires Cycle(h, p)
    ensures Cycle(g, p)
  {
    assert Edge(h, p[|p| - 2], p[|p| - 1]);
    forall i | 0 < i < |p| ensures Edge(g, p[i - 1], p[i]) {
      assert Edge(h, p[i - 1], p[i]);
      if i - 1 > 0 {
        assert Edge(h, p[i - 2], p[i - 1]);
      }
    }
  }

  /** A new task with sound blockers never closes a cycle, because nothing can wait for it yet. */
  lemma CreateKeeps(m: Tasks, t: Task)
    requires GraphOk(m) && t.id !in m && t.Active() && BlockersOk(m, t)
    ensures GraphOk(m[t.id := t])
  {
    var after := m[t.id := t];
    var g, h := Dependencies(m), Dependencies(after);
    forall a, b | Edge(h, a, b) ensures b != t.id && (a != t.id ==> Edge(g, a, b)) {
      if a == t.id {
        assert !SelfBlocked(t);
      } else {
        assert Alive(m, a) && !Dangling(m, m[a]);
        assert Alive(m, b);
      }
    }
    forall p: seq<TaskId> | Cycle(h, p) ensures false {
      CycleAvoids(g, h, t.id, p);
    }
    forall id | Alive(after, id) ensures BlockersOk(after, after[id]) {
      if id != t.id {
        assert Alive(m, id) && BlockersOk(m, m[id]);
      }
      forall b | b in after[id].blockedBy ensures Alive(after, b) {
        assert Alive(m, b);
      }
    }
  }
}
