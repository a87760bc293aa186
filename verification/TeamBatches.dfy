/** The commands that create, edit and archive a team's batches. */
module TeamBatchCommands {
  import opened Wrappers
  import opened Identities
  import opened TaskGraphs
  import opened TeamProjections
  import opened TaskBoards

  function Replaced(value: Option<Text>, current: Text, maxLength: nat): (r: Result<Text, Code>)
    ensures r.Ok? && value.Some? ==> r.value != []
    ensures value.None? ==> r == Ok(current)
  {
    if value.Some? then Required(value.value, maxLength) else Ok(current)
  }

  predicate TaskIdsOk(m: Tasks, ids: seq<TaskId>) {
    DistinctIds(ids) && forall id :: id in ids ==> Alive(m, id)
  }

  /** An open batch at the expected revision, which is not the last safe one. */
  predicate Editable(b: Board, id: BatchId, expectedRevision: nat) {
    && id in b.batches && !b.batches[id].archived
    && b.batches[id].revision == expectedRevision < MAX_SAFE_INTEGER
  }

  class TeamBatches {
    const journal: TeamProjection
    const maxBatches: nat
    const maxTextLength: nat

    ghost predicate Valid()
      reads this, journal
    {
      journal.Valid() && !journal.failed && Inv(journal.Contents())
    }

    constructor (journal: TeamProjection, maxBatches: nat, maxTextLength: nat)
      requires journal.Valid() && !journal.failed && Inv(journal.Contents())
      ensures Valid() && this.journal == journal && this.maxBatches == maxBatches && this.maxTextLength == maxTextLength
    {
      this.journal, this.maxBatches, this.maxTextLength := journal, maxBatches, maxTextLength;
    }

    method Append(batch: Batch)
      requires Valid() && BatchAccepted(journal.Contents(), batch)
      modifies journal
      ensures Valid() && journal.Contents() == WithBatch(old(journal.Contents()), batch)
    {
      BatchKeeps(journal.Contents(), batch);
      journal.Apply(BatchEvent(batch));
    }

    method Create(c: Caller, name: Text, description: Text, taskIds: seq<TaskId>) returns (r: Result<Batch, Code>)
      requires Valid()
      modifies journal
      ensures Valid()
      ensures r.Err? ==> journal.State() == old(journal.State())
      ensures r.Ok? ==> && c.lead && r.value.id !in old(journal.Contents()).batches
                        && r.value.taskIds == taskIds && !r.value.archived
                        && BatchTasksOk(journal.Contents().tasks, r.value)
                        && journal.Contents() == WithBatch(old(journal.Contents()), r.value)
      ensures r.Ok? <==> && c.lead && NumberedBatch(old(journal.nextBatchNumber), 0) !in old(journal.Contents()).batches
                         && |OpenBatches(old(journal.Contents()))| < maxBatches
                         && Required(name, maxTextLength).Ok? && Required(description, maxTextLength).Ok?
                         && TaskIdsOk(old(journal.Contents()).tasks, taskIds)
    {
      if !c.lead {
        return Err(LeadRequired);
      }
      var state := journal.Contents();
      var id := NumberedBatch(state.nextBatchNumber, 0);
      if |OpenBatches(state)| >= maxBatches || id in state.batches {
        return Err(LimitReached);
      }
      var newName, newDescription := Required(name, maxTextLength), Required(description, maxTextLength);
      if newName.Err? || newDescription.Err? {
        return Err(InvalidArgument);
      }
      if !TaskIdsOk(state.tasks, taskIds) {
        return Err(if DistinctIds(taskIds) then NotFound else InvalidArgument);
      }
      r := Ok(Batch(id, 1, newName.value, newDescription.value, taskIds, false));
      Append(r.value);
    }

    /** Edit or archive a batch. Unlike a task's, its revision is checked against the last safe integer, so this
        command never stops the projection. */
    method Update(c: Caller, id: BatchId, expectedRevision: nat, name: Option<Text>, description: Option<Text>,
                  taskIds: Option<seq<TaskId>>, archive: bool) returns (r: Result<Batch, Code>)
      requires Valid()
      modifies journal
      ensures Valid()
      ensures r.Err? ==> journal.State() == old(journal.State())
      ensures r.Ok? <==> && c.lead && Editable(old(journal.Contents()), id, expectedRevision)
                         && (name.Some? || description.Some? || taskIds.Some? || archive)
                         && (name.Some? ==> Required(name.value, maxTextLength).Ok?)
                         && (description.Some? ==> Required(description.value, maxTextLength).Ok?)
                         && (taskIds.Some? ==> TaskIdsOk(old(journal.Contents()).tasks, taskIds.value))
      ensures r.Ok? ==> && r.value.id == id && r.value.revision == expectedRevision + 1 && r.value.archived == archive
                        && Ok(r.value.name)
                           == Replaced(name, old(journal.Contents()).batches[id].name, maxTextLength)
                        && Ok(r.value.description)
                           == Replaced(description, old(journal.Contents()).batches[id].description, maxTextLength)
                        && r.value.taskIds
                           == (if taskIds.Some? then taskIds.value else old(journal.Contents()).batches[id].taskIds)
                        && journal.Contents() == WithBatch(old(journal.Contents()), r.value)
    {
      if !c.lead {
        return Err(LeadRequired);
      }
      var state := journal.Contents();
      if id !in state.batches {
        return Err(NotFound);
      }
      var current := state.batches[id];
      if current.revision != expectedRevision {
        return Err(StaleRevision);
      }
      if current.revision == MAX_SAFE_INTEGER {
        return Err(LimitReached);
      }
      if current.archived {
        return Err(BatchArchived);
      }
      if name.None? && description.None? && taskIds.None? && !archive {
        return Err(InvalidArgument);
      }
      var newName := Replaced(name, current.name, maxTextLength);
      var newDescription := Replaced(description, current.description, maxTextLength);
      if newName.Err? || newDescription.Err? {
        return Err(InvalidArgument);
      }
      if taskIds.Some? && !TaskIdsOk(state.tasks, taskIds.value) {
        return Err(if DistinctIds(taskIds.value) then NotFound else InvalidArgument);
      }
      r := Ok(Batch(id, expectedRevision + 1, newName.value, newDescription.value,
                    if taskIds.Some? then taskIds.value else current.taskIds, archive));
      Append(r.value);
    }
  }

  function OpenBatches(b: Board): set<BatchId> {
    set k | k in b.batches && !b.batches[k].archived
  }
}
