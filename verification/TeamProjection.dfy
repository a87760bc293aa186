/** The task and batch part of a team's state, replayed from its committed events. */
module TeamProjections {
  import opened Wrappers
  import opened Identities
  import opened Keyed
  import opened TaskGraphs
  import opened Texts

  const MAX_SAFE_INTEGER: nat := 0x1F_FFFF_FFFF_FFFF

  /** `batch-<digits>` ids carry a number; every other id is only text. */
  datatype BatchId = NumberedBatch(number: nat, zeros: nat) | NamedBatch(text: Text)

  datatype Batch = Batch(
    id: BatchId,
    revision: nat,
    name: Text,
    description: Text,
    taskIds: seq<TaskId>,
    archived: bool)

  /** What a team's committed events add up to. */
  datatype Board = Board(
    tasks: Tasks,
    batches: map<BatchId, Batch>,
    nextTaskNumber: nat,
    nextBatchNumber: nat)

  const EMPTY := Board(map[], map[], 1, 1)

  // ----- Which snapshots a replay accepts -----

  predicate Stored(text: Option<Text>) {
    text.Some? ==> !Blank(text.value)
  }

  /** The persisted form of a task. */
  predicate TaskWellFormed(t: Task) {
    && 1 <= t.revision <= MAX_SAFE_INTEGER
    && (t.id.Numbered? ==> t.id.number <= MAX_SAFE_INTEGER)
    && Stored(t.nonCodeCriteria) && Stored(t.reviewGate) && Stored(t.result)
    && (t.reviewGate.Some? ==> |t.reviewGate.value| <= 128)
  }

  /** What one snapshot must satisfy on its own. */
  predicate Consistent(t: Task) {
    && (t.status == Completed <==> t.result.Some?)
    && !(t.nonCodeCriteria.Some? && t.reviewGate.Some?)
    && (t.factory.Some? ==>
          && t.workflow.Some?
          && t.workflow.value.executionId == t.factory.value.executionId
          && t.workflow.value.stepId == t.factory.value.stepId
          && (t.status == Pending || t.status == Deleted) && t.ownerId.None?)
  }

  /** What a next snapshot may not change. */
  predicate Follows(prior: Task, t: Task) {
    && t.revision == prior.revision + 1
    && t.nonCodeCriteria == prior.nonCodeCriteria && t.reviewGate == prior.reviewGate
    && t.workflow == prior.workflow && t.factory == prior.factory && t.review == prior.review
    && (t.factory.Some? ==>
          && prior.status != Deleted && t.subject == prior.subject && t.description == prior.description
          && t.blockedBy == prior.blockedBy && t.writeScopes == prior.writeScopes)
  }

  predicate HeldByBatch(b: Board, id: TaskId) {
    exists k :: k in b.batches && !b.batches[k].archived && id in b.batches[k].taskIds
  }

  predicate TaskAllowed(b: Board, t: Task) {
    && Consistent(t)
    && (if t.id in b.tasks then Follows(b.tasks[t.id], t) else t.revision == 1)
    && (t.status == Deleted ==> !HeldByBatch(b, t.id))
  }

  ghost predicate TaskAccepted(b: Board, t: Task) {
    TaskWellFormed(t) && TaskAllowed(b, t) && GraphOk(b.tasks[t.id := t])
  }

  function Max(a: nat, b: nat): nat {
    if a < b then b else a
  }

  function After(number: nat): nat {
    if number >= MAX_SAFE_INTEGER then MAX_SAFE_INTEGER else number + 1
  }

  function WithTask(b: Board, t: Task): Board {
    b.(tasks := b.tasks[t.id := t],
       nextTaskNumber := if t.id.Numbered? then Max(b.nextTaskNumber, After(t.id.number)) else b.nextTaskNumber)
  }

  predicate DistinctIds(ids: seq<TaskId>) {
    forall i, j :: 0 <= i < j < |ids| ==> ids[i] != ids[j]
  }

  predicate BatchTasksOk(m: Tasks, batch: Batch) {
    DistinctIds(batch.taskIds) && forall id :: id in batch.taskIds ==> Alive(m, id)
  }

  predicate BatchAccepted(b: Board, batch: Batch) {
    && 1 <= batch.revision <= MAX_SAFE_INTEGER && batch.name != [] && batch.description != []
    && (batch.id.NumberedBatch? ==> batch.id.number <= MAX_SAFE_INTEGER)
    && (if batch.id in b.batches
        then !b.batches[batch.id].archived && batch.revision == b.batches[batch.id].revision + 1
        else batch.revision == 1 && !batch.archived)
    && BatchTasksOk(b.tasks, batch)
  }

  function WithBatch(b: Board, batch: Batch): Board {
    b.(batches := b.batches[batch.id := batch],
       nextBatchNumber :=
         if batch.id.NumberedBatch? then Max(b.nextBatchNumber, After(batch.id.number)) else b.nextBatchNumber)
  }

  // ----- Every reachable state -----

  ghost predicate TasksOk(m: Tasks) {
    && (forall id :: id in m ==> m[id].id == id && TaskWellFormed(m[id]) && Consistent(m[id]))
    && GraphOk(m)
  }

  predicate BatchesOk(b: Board) {
    forall k :: k in b.batches ==>
      && b.batches[k].id == k && b.batches[k].revision <= MAX_SAFE_INTEGER
      && (k.NumberedBatch? ==> k.number <= MAX_SAFE_INTEGER)
      && b.batches[k].name != [] && b.batches[k].description != []
      && (!b.batches[k].archived ==> BatchTasksOk(b.tasks, b.batches[k]))
  }

  predicate Numbering(b: Board) {
    && 1 <= b.nextTaskNumber <= MAX_SAFE_INTEGER && 1 <= b.nextBatchNumber <= MAX_SAFE_INTEGER
    && (forall id: TaskId :: id in b.tasks && id.Numbered? ==> After(id.number) <= b.nextTaskNumber)
    && (forall id: BatchId :: id in b.batches && id.NumberedBatch? ==> After(id.number) <= b.nextBatchNumber)
  }

  ghost predicate Inv(b: Board) {
    TasksOk(b.tasks) && BatchesOk(b) && Numbering(b)
  }

  lemma TaskKeeps(b: Board, t: Task)
    requires Inv(b) && TaskAccepted(b, t)
    ensures Inv(WithTask(b, t))
  {
    var after := WithTask(b, t);
    forall k | k in after.batches && !after.batches[k].archived ensures BatchTasksOk(after.tasks, after.batches[k]) {
      forall id | id in after.batches[k].taskIds ensures Alive(after.tasks, id) {
        assert Alive(b.tasks, id);
        assert id == t.id ==> HeldByBatch(b, id);
      }
    }
  }

  lemma BatchKeeps(b: Board, batch: Batch)
    requires Inv(b) && BatchAccepted(b, batch)
    ensures Inv(WithBatch(b, batch))
  {
  }

  datatype Event = TaskEvent(task: Task) | BatchEvent(batch: Batch)

  /** After the first event it refuses, a projection keeps its state and reads nothing more. */
  datatype Replayed = Replayed(board: Board, failed: bool)

  ghost function Step(r: Replayed, e: Event): Replayed {
    if r.failed then r else
    match e
    case TaskEvent(t) =>
      if TaskAccepted(r.board, t) then Replayed(WithTask(r.board, t), false) else r.(failed := true)
    case BatchEvent(batch) =>
      if BatchAccepted(r.board, batch) then Replayed(WithBatch(r.board, batch), false) else r.(failed := true)
  }

  ghost function Replay(events: seq<Event>): Replayed {
    if events == [] then Replayed(EMPTY, false) else
    Step(Replay(events[..|events| - 1]), events[|events| - 1])
  }

  lemma EmptyOk()
    ensures Inv(EMPTY)
  {
    assert GraphOk(map[]) by {
      Digraphs.FinishedAcyclic(Dependencies(map[]), []);
    }
  }

  /** Every state any event history leads to, refused events included, is sound. */
  lemma {:induction false} ReplayKeeps(events: seq<Event>)
    ensures Inv(Replay(events).board)
  {
    if events == [] {
      EmptyOk();
    } else {
      var before, e := Replay(events[..|events| - 1]), events[|events| - 1];
      ReplayKeeps(events[..|events| - 1]);
      match e {
        case TaskEvent(t) =>
          if TaskAccepted(before.board, t) {
            TaskKeeps(before.board, t);
          }
        case BatchEvent(batch) =>
          if BatchAccepted(before.board, batch) {
            BatchKeeps(before.board, batch);
          }
      }
    }
  }

  /** In no reachable state is all unfinished work blocked. */
  lemma WorkNeverDeadlocks(events: seq<Event>)
    requires exists id :: id in Replay(events).board.tasks && Replay(events).board.tasks[id].Unfinished()
    ensures exists id :: id in Replay(events).board.tasks && Replay(events).board.tasks[id].Unfinished()
              && Ready(Replay(events).board.tasks, Replay(events).board.tasks[id])
  {
    ReplayKeeps(events);
    SomeTaskIsReady(Replay(events).board.tasks);
  }

  /** What stays true of a task however the history goes on. */
  predicate Descends(prior: Task, t: Task) {
    && prior.revision <= t.revision
    && t.nonCodeCriteria == prior.nonCodeCriteria && t.reviewGate == prior.reviewGate
    && t.workflow == prior.workflow && t.factory == prior.factory && t.review == prior.review
    && (t.factory.Some? ==>
          && t.subject == prior.subject && t.description == prior.description
          && t.blockedBy == prior.blockedBy && t.writeScopes == prior.writeScopes
          && (prior.status == Deleted ==> t == prior))
  }

  lemma StepDescends(r: Replayed, e: Event, id: TaskId)
    requires id in r.board.tasks
    ensures id in Step(r, e).board.tasks && Descends(r.board.tasks[id], Step(r, e).board.tasks[id])
  {
  }

  lemma DescendsTwice(a: Task, b: Task, c: Task)
    requires Descends(a, b) && Descends(b, c)
    ensures Descends(a, c)
  {
  }

  /** Reviews, bindings and criteria are fixed at creation; a factory's task never runs and never comes back. */
  lemma {:induction false} BindingsForever(past: seq<Event>, more: seq<Event>, id: TaskId)
    requires id in Replay(past).board.tasks
    ensures id in Replay(past + more).board.tasks
    ensures Descends(Replay(past).board.tasks[id], Replay(past + more).board.tasks[id])
    decreases |more|
  {
    if more == [] {
      assert past + more == past;
    } else {
      var all := past + more;
      assert all[..|all| - 1] == past + more[..|more| - 1];
      BindingsForever(past, more[..|more| - 1], id);
      var before := Replay(past + more[..|more| - 1]);
      StepDescends(before, all[|all| - 1], id);
      DescendsTwice(Replay(past).board.tasks[id], before.board.tasks[id], Replay(all).board.tasks[id]);
    }
  }

  // ----- The state kept in place -----

  function BatchIdOf(b: Batch): BatchId {
    b.id
  }

  class TeamProjection {
    var tasks: seq<Task>
    var batches: seq<Batch>
    var nextTaskNumber: nat
    var nextBatchNumber: nat
    var failed: bool

    ghost predicate Valid()
      reads this
    {
      Unique(tasks, IdOf) && Unique(batches, BatchIdOf)
    }

    function Contents(): Board
      reads this
    {
      Board(ById(tasks), Index(batches, BatchIdOf), nextTaskNumber, nextBatchNumber)
    }

    ghost function State(): Replayed
      reads this
    {
      Replayed(Contents(), failed)
    }

    constructor ()
      ensures Valid() && State() == Replay([])
    {
      tasks, batches, nextTaskNumber, nextBatchNumber, failed := [], [], 1, 1, false;
    }

    method AcceptsTask(t: Task) returns (accepted: bool)
      requires Valid()
      ensures accepted <==> TaskAccepted(Contents(), t)
    {
      IndexReads(tasks, IdOf);
      IndexReads(batches, BatchIdOf);
      var index := Find(tasks, IdOf, t.id);
      assert index < |tasks| <==> t.id in ById(tasks);
      if !TaskWellFormed(t) || !Consistent(t)
         || (if index < |tasks| then !Follows(tasks[index], t) else t.revision != 1) {
        return false;
      }
      if t.status == Deleted {
        var held := InActiveBatch(t.id);
        if held {
          return false;
        }
      }
      var violation := AssertTaskGraphCandidate(tasks, t);
      accepted := violation.None?;
    }

    method InActiveBatch(id: TaskId) returns (held: bool)
      requires Valid()
      ensures held <==> HeldByBatch(Contents(), id)
    {
      IndexReads(batches, BatchIdOf);
      held := exists i :: 0 <= i < |batches| && !batches[i].archived && id in batches[i].taskIds;
      if held {
        var i :| 0 <= i < |batches| && !batches[i].archived && id in batches[i].taskIds;
        assert batches[i].id in Contents().batches;
      }
    }

    method AcceptsBatch(batch: Batch) returns (accepted: bool)
      requires Valid()
      ensures accepted <==> BatchAccepted(Contents(), batch)
    {
      IndexReads(tasks, IdOf);
      IndexReads(batches, BatchIdOf);
      var index := Find(batches, BatchIdOf, batch.id);
      assert index < |batches| <==> batch.id in Contents().batches;
      accepted :=
        && 1 <= batch.revision <= MAX_SAFE_INTEGER && batch.name != [] && batch.description != []
        && (batch.id.NumberedBatch? ==> batch.id.number <= MAX_SAFE_INTEGER)
        && (if index < |batches|
            then !batches[index].archived && batch.revision == batches[index].revision + 1
            else batch.revision == 1 && !batch.archived)
        && DistinctIds(batch.taskIds)
        && forall id :: id in batch.taskIds ==> LiveTask(tasks, id);
      LiveTasks(tasks);
    }

    /** Apply one committed event, or fail for good and keep the state. */
    method Apply(e: Event)
      requires Valid()
      modifies this
      ensures Valid() && State() == Step(old(State()), e)
      ensures tasks == if !failed && e.TaskEvent? then Put(old(tasks), IdOf, e.task) else old(tasks)
    {
      if failed {
        return;
      }
      var accepted: bool;
      match e {
        case TaskEvent(t) =>
          accepted := AcceptsTask(t);
          if accepted {
            StoreTask(t);
          }
        case BatchEvent(batch) =>
          accepted := AcceptsBatch(batch);
          if accepted {
            StoreBatch(batch);
          }
      }
      if !accepted {
        failed := true;
      }
    }

    method StoreTask(t: Task)
      requires Valid()
      modifies this`tasks, this`nextTaskNumber
      ensures Valid() && Contents() == WithTask(old(Contents()), t) && tasks == Put(old(tasks), IdOf, t)
    {
      TaskStored(tasks, t);
      tasks := Put(tasks, IdOf, t);
      if t.id.Numbered? {
        nextTaskNumber := Max(nextTaskNumber, After(t.id.number));
      }
    }

    method StoreBatch(batch: Batch)
      requires Valid()
      modifies this`batches, this`nextBatchNumber
      ensures Valid() && Contents() == WithBatch(old(Contents()), batch)
    {
      IndexPut(batches, BatchIdOf, batch);
      if batch.id.NumberedBatch? {
        nextBatchNumber := Max(nextBatchNumber, After(batch.id.number));
      }
      batches := Put(batches, BatchIdOf, batch);
    }
  }

  lemma TaskStored(tasks: seq<Task>, t: Task)
    requires Unique(tasks, IdOf)
    ensures Unique(Put(tasks, IdOf, t), IdOf) && ById(Put(tasks, IdOf, t)) == ById(tasks)[t.id := t]
  {
    IndexPut(tasks, IdOf, t);
  }

  predicate LiveTask(tasks: seq<Task>, id: TaskId) {
    exists i :: 0 <= i < |tasks| && tasks[i].id == id && tasks[i].status != Deleted
  }

  lemma LiveTasks(tasks: seq<Task>)
    requires Unique(tasks, IdOf)
    ensures forall id :: LiveTask(tasks, id) <==> Alive(ById(tasks), id)
  {
    IndexReads(tasks, IdOf);
    forall id ensures LiveTask(tasks, id) <==> Alive(ById(tasks), id) {
      if Alive(ById(tasks), id) {
        var i :| 0 <= i < |tasks| && tasks[i] == ById(tasks)[id];
        assert tasks[i].id == id;
      }
    }
  }
}
