/** The commands that change a team's tasks and batches. Each appends one event and must never append one
    that the replay refuses, because a refused event stops the projection for good. */
module TaskBoards {
  import opened Wrappers
  import opened Identities
  import opened Keyed
  import opened TaskGraphs
  import opened TeamProjections
  import opened Texts

  datatype Code =
    | InvalidArgument | NotFound | LeadOnly | LimitReached | DependencyCycle | StaleRevision | TaskDeleted
    | Managed | Unauthorized | AlreadyClaimed | Blocked | InvalidTransition | LeadRequired | InBatch
    | HasDependents | IntegrationConflict | BatchArchived | ProjectionFailed

  datatype Caller = Caller(id: Text, lead: bool)

  datatype CreateRequest = CreateRequest(
    subject: Text,
    description: Text,
    nonCodeCriteria: Option<Text>,
    blockedBy: seq<TaskId>,
    writeScopes: seq<Text>)

  /** A workflow's admission; its bindings were checked field by field before. */
  datatype PinnedRequest = PinnedRequest(
    admissionKey: Text,
    subject: Text,
    description: Text,
    nonCodeCriteria: Option<Text>,
    reviewGate: Option<Text>,
    workflow: WorkflowBinding,
    factory: Option<FactoryBinding>,
    review: Option<Text>)

  datatype Action =
    | Claim
    | Release
    | Edit(subject: Option<Text>, description: Option<Text>, writeScopes: Option<seq<Text>>)
    | SetDependencies(blockedBy: Option<seq<TaskId>>)
    | Complete(evidence: Option<Text>)
    | Reopen
    | Reassign(owner: Option<Text>)
    | Delete

  // ----- Checks shared by the commands -----

  function Required(value: Text, maxLength: nat): (r: Result<Text, Code>)
    ensures r.Ok? ==> !Blank(r.value) && 0 < |r.value| <= maxLength
  {
    match RequiredText(value, maxLength)
    case Ok(text) => Ok(text)
    case Err(_) => Err(InvalidArgument)
  }

  function Optional(value: Option<Text>, maxLength: nat): (r: Result<Option<Text>, Code>)
    ensures r.Ok? ==> (r.value.Some? <==> value.Some?) && Stored(r.value)
    ensures r.Ok? && r.value.Some? ==> |r.value.value| <= maxLength
  {
    if value.None? then Ok(None) else
    match Required(value.value, maxLength)
    case Ok(text) => Ok(Some(text))
    case Err(code) => Err(code)
  }

  /** Keep the first of each repeated write scope. */
  function Distinct(scopes: seq<Text>): (r: seq<Text>)
    ensures forall s :: s in r <==> s in scopes
    ensures forall i, j :: 0 <= i < j < |r| ==> r[i] != r[j]
  {
    if scopes == [] then [] else
    var rest := Distinct(scopes[..|scopes| - 1]);
    if scopes[|scopes| - 1] in rest then rest else rest + [scopes[|scopes| - 1]]
  }

  function ActiveTasks(m: Tasks): set<TaskId> {
    set id | id in m && m[id].Active()
  }

  predicate TaskReady(m: Tasks, t: Task) {
    t.factory.None? && Ready(m, t)
  }

  predicate HasDependent(m: Tasks, id: TaskId) {
    exists k :: k in m && m[k].Active() && k != id && id in m[k].blockedBy
  }

  /** The blockers a command may write: distinct, active, and not the task itself. */
  predicate DependenciesOk(m: Tasks, self: Option<TaskId>, values: seq<TaskId>) {
    DistinctIds(values) && (forall v :: v in values ==> Alive(m, v)) && (self.Some? ==> self.value !in values)
  }

  method CheckDependencies(m: Tasks, self: Option<TaskId>, values: seq<TaskId>) returns (r: Result<seq<TaskId>, Code>)
    ensures r.Ok? <==> DependenciesOk(m, self, values)
    ensures r.Ok? ==> r.value == values
    ensures r == Err(DependencyCycle) ==> self.Some? && self.value in values
    ensures r == Err(InvalidArgument) ==> !DistinctIds(values)
    ensures r == Err(NotFound) ==> exists v :: v in values && !Alive(m, v)
  {
    var seen: set<TaskId> := {};
    var result: seq<TaskId> := [];
    for i := 0 to |values|
      invariant result == values[..i]
      invariant forall b :: b in seen <==> b in result
      invariant DependenciesOk(m, self, result)
    {
      var id := values[i];
      if self == Some(id) {
        return Err(DependencyCycle);
      }
      if id in seen {
        return Err(InvalidArgument);
      }
      if id !in m || m[id].status == Deleted {
        assert id in values && !Alive(m, id);
        return Err(NotFound);
      }
      seen := seen + {id};
      result := result + [id];
    }
    assert values == values[..|values|];
    r := Ok(result);
  }

  function ErrorCode(violation: Violation): Code {
    match violation
    case Missing => NotFound
    case Duplicate => InvalidArgument
    case Cyclic => DependencyCycle
  }

  // ----- The next snapshot of a task -----

  function Authorized(c: Caller, t: Task): bool {
    c.lead || t.ownerId == Some(c.id)
  }

  function Edited(t: Task, subject: Option<Text>, description: Option<Text>,
          scopes: Option<seq<Text>>): Result<Task, Code>
  {
    if subject.None? && description.None? && scopes.None? then Err(InvalidArgument) else
    match (if subject.Some? then Required(subject.value, 200) else Ok(t.subject))
    case Err(code) => Err(code)
    case Ok(newSubject) =>
      match (if description.Some? then Required(description.value, 16_384) else Ok(t.description))
      case Err(code) => Err(code)
      case Ok(newDescription) =>
        Ok(t.(subject := newSubject, description := newDescription,
              writeScopes := if scopes.Some? then Distinct(scopes.value) else t.writeScopes))
  }

  /** The snapshot one action leads to, before its revision is raised. `blockers` are the checked new blockers
      and `assignee` the member a new owner's name resolves to. */
  function Next(b: Board, c: Caller, t: Task, a: Action, blockers: Result<seq<TaskId>, Code>, assignee: Option<Text>,
                maxResult: nat): Result<Task, Code> {
    match a
    case Claim =>
      if t.ownerId.Some? && t.ownerId != Some(c.id) then Err(AlreadyClaimed)
      else if t.status != Pending || !TaskReady(b.tasks, t) then Err(Blocked)
      else Ok(t.(status := InProgress, ownerId := Some(c.id)))
    case Release =>
      if !Authorized(c, t) then Err(Unauthorized)
      else if t.status != InProgress then Err(InvalidTransition)
      else Ok(t.(status := Pending, ownerId := None))
    case Edit(subject, description, scopes) =>
      if !Authorized(c, t) then Err(Unauthorized) else Edited(t, subject, description, scopes)
    case SetDependencies(blockedBy) =>
      if !Authorized(c, t) then Err(Unauthorized)
      else if blockedBy.None? then Err(InvalidArgument)
      else if blockers.Err? then Err(blockers.error)
      else Ok(t.(blockedBy := blockers.value))
    case Complete(evidence) =>
      if !Authorized(c, t) then Err(Unauthorized)
      else if t.status != InProgress then Err(InvalidTransition)
      else if evidence.None? then Err(InvalidArgument)
      else (match Required(evidence.value, maxResult)
            case Err(code) => Err(code)
            case Ok(text) => Ok(t.(status := Completed, result := Some(text))))
    case Reopen =>
      if !Authorized(c, t) then Err(Unauthorized)
      else if t.status != Completed then Err(InvalidTransition)
      else Ok(t.(status := Pending, ownerId := None, result := None))
    case Reassign(owner) =>
      if !c.lead then Err(LeadRequired)
      else if !t.Unfinished() then Err(InvalidTransition)
      else if owner.None? || Blank(owner.value) then Ok(t.(status := Pending, ownerId := None))
      else if !TaskReady(b.tasks, t) then Err(Blocked)
      else if assignee.None? then Err(NotFound)
      else Ok(t.(status := InProgress, ownerId := assignee))
    case Delete =>
      if !Authorized(c, t) then Err(Unauthorized)
      else if HeldByBatch(b, t.id) then Err(InBatch)
      else if HasDependent(b.tasks, t.id) then Err(HasDependents)
      else Ok(t.(status := Deleted, result := None))
  }

  /** What may happen to a task, whatever action asked for it. */
  predicate Lawful(b: Board, c: Caller, prior: Task, t: Task) {
    // Work starts or changes hands only once every blocker is completed.
    && (t.status == InProgress && (prior.status != InProgress || t.ownerId != prior.ownerId) ==>
          prior.Unfinished() && Ready(b.tasks, prior) && t.ownerId.Some?)
    // Only running work completes, at the hand of its owner or the lead, and it keeps its evidence.
    && (t.status == Completed && prior.status != Completed ==> prior.status == InProgress && Authorized(c, prior))
    && (t.status == Completed && prior.status == Completed ==> t.result == prior.result)
    // Nothing that others wait for, or that a batch counts, disappears.
    && (t.status == Deleted ==> !HeldByBatch(b, t.id) && !HasDependent(b.tasks, t.id))
    // A member gives work only to itself and gives up only its own.
    && (!c.lead && t.ownerId != prior.ownerId ==>
          t.ownerId == Some(c.id) || (t.ownerId.None? && prior.ownerId == Some(c.id)))
    // Whoever is neither the owner nor the lead can only claim unowned work.
    && (!Authorized(c, prior) ==> prior.ownerId.None? && t == prior.(status := InProgress, ownerId := Some(c.id)))
    // Unowned again means pending again, except for what is deleted.
    && (prior.ownerId.Some? && t.ownerId.None? ==> t.status == Pending && t.result.None?)
  }

  function Target(a: Action, t: Task, next: Task): Status {
    match a
    case Claim => InProgress
    case Release => Pending
    case Edit(_, _, _) => t.status
    case SetDependencies(_) => t.status
    case Complete(_) => Completed
    case Reopen => Pending
    case Reassign(_) => if next.ownerId.Some? then InProgress else Pending
    case Delete => Deleted
  }

  /** Every action's outcome respects ownership, readiness and evidence. */
  lemma NextLawful(b: Board, c: Caller, t: Task, a: Action, blockers: Result<seq<TaskId>, Code>,
          assignee: Option<Text>, maxResult: nat)
    requires TasksOk(b.tasks) && Alive(b.tasks, t.id) && b.tasks[t.id] == t && (a.Delete? || t.factory.None?)
    requires Next(b, c, t, a, blockers, assignee, maxResult).Ok?
    ensures Lawful(b, c, t, Next(b, c, t, a, blockers, assignee, maxResult).value)
    ensures Next(b, c, t, a, blockers, assignee, maxResult).value.status
         == Target(a, t, Next(b, c, t, a, blockers, assignee, maxResult).value)
  {
    assert Consistent(t);
  }

  function Raised(t: Task): Task {
    t.(revision := t.revision + 1)
  }

  lemma NextWellFormed(b: Board, c: Caller, t: Task, a: Action, blockers: Result<seq<TaskId>, Code>,
          assignee: Option<Text>, maxResult: nat)
    requires Inv(b) && Alive(b.tasks, t.id) && b.tasks[t.id] == t
    requires Next(b, c, t, a, blockers, assignee, maxResult).Ok?
    ensures TaskWellFormed(Raised(Next(b, c, t, a, blockers, assignee, maxResult).value)) <==>
              t.revision < MAX_SAFE_INTEGER
  {
    assert TaskWellFormed(t);
  }

  lemma NextConsistent(b: Board, c: Caller, t: Task, a: Action, blockers: Result<seq<TaskId>, Code>,
          assignee: Option<Text>, maxResult: nat)
    requires Consistent(t) && (a.Delete? || t.factory.None?)
    requires Next(b, c, t, a, blockers, assignee, maxResult).Ok?
    ensures Consistent(Raised(Next(b, c, t, a, blockers, assignee, maxResult).value))
  {
  }

  lemma NextFollows(b: Board, c: Caller, t: Task, a: Action, blockers: Result<seq<TaskId>, Code>,
          assignee: Option<Text>, maxResult: nat)
    requires Alive(b.tasks, t.id) && b.tasks[t.id] == t && (a.Delete? || t.factory.None?)
    requires Next(b, c, t, a, blockers, assignee, maxResult).Ok?
    ensures var next := Raised(Next(b, c, t, a, blockers, assignee, maxResult).value);
      next.id == t.id && Follows(t, next) && (next.status == Deleted ==> !HeldByBatch(b, t.id))
  {
  }

  /** A replay accepts an action's snapshot unless its dependencies are refused or its revision is spent. */
  lemma NextAllowed(b: Board, c: Caller, t: Task, a: Action, blockers: Result<seq<TaskId>, Code>,
          assignee: Option<Text>, maxResult: nat)
    requires Inv(b) && Alive(b.tasks, t.id) && b.tasks[t.id] == t && (a.Delete? || t.factory.None?)
    requires Next(b, c, t, a, blockers, assignee, maxResult).Ok?
    ensures TaskAllowed(b, Raised(Next(b, c, t, a, blockers, assignee, maxResult).value))
    ensures TaskWellFormed(Raised(Next(b, c, t, a, blockers, assignee, maxResult).value)) <==>
              t.revision < MAX_SAFE_INTEGER
  {
    NextConsistent(b, c, t, a, blockers, assignee, maxResult);
    NextFollows(b, c, t, a, blockers, assignee, maxResult);
    NextWellFormed(b, c, t, a, blockers, assignee, maxResult);
  }

  /** Only a change of dependencies can make the graph check of an update fail. */
  lemma OnlyDependenciesChangeGraph(b: Board, c: Caller, t: Task, a: Action, blockers: Result<seq<TaskId>, Code>,
                                    assignee: Option<Text>, maxResult: nat)
    requires Inv(b) && Alive(b.tasks, t.id) && b.tasks[t.id] == t && !a.SetDependencies?
    requires Next(b, c, t, a, blockers, assignee, maxResult).Ok?
    ensures GraphOk(b.tasks[t.id := Raised(Next(b, c, t, a, blockers, assignee, maxResult).value)])
  {
    var next := Raised(Next(b, c, t, a, blockers, assignee, maxResult).value);
    if a.Delete? {
      DeleteKeeps(b.tasks, next);
    } else {
      SameGraph(b.tasks, next);
    }
  }

  // ----- One transition, decided -----

  /** The new blockers of a change of dependencies, once they are checked. */
  function Blockers(m: Tasks, id: TaskId, a: Action): Result<seq<TaskId>, Code> {
    if a.SetDependencies? && a.blockedBy.Some? && DependenciesOk(m, Some(id), a.blockedBy.value)
    then Ok(a.blockedBy.value) else Err(InvalidArgument)
  }

  /** The snapshot that a compare-and-set transition decides on, if it is allowed at all. */
  function Decided(b: Board, c: Caller, allowed: bool, id: TaskId, expectedRevision: nat, a: Action,
          assignee: Option<Text>, maxResult: nat): Option<Task> {
    if !allowed || !Alive(b.tasks, id) || b.tasks[id].revision != expectedRevision
       || (!a.Delete? && b.tasks[id].factory.Some?)
    then None
    else match Next(b, c, b.tasks[id], a, Blockers(b.tasks, id, a), assignee, maxResult)
         case Err(_) => None
         case Ok(next) => Some(Raised(next))
  }

  /** A decided snapshot is written unless its new dependencies close a cycle. */
  ghost predicate Writes(m: Tasks, id: TaskId, a: Action, decided: Option<Task>) {
    decided.Some? && (a.SetDependencies? ==> GraphOk(m[id := decided.value]))
  }

  /** Which error refuses the blockers makes no difference to what is decided. */
  lemma NextBeyondCodes(b: Board, c: Caller, t: Task, a: Action, x: Result<seq<TaskId>, Code>,
          y: Result<seq<TaskId>, Code>, assignee: Option<Text>, maxResult: nat)
    requires a.SetDependencies? && a.blockedBy.Some? ==> x == y || (x.Err? && y.Err?)
    ensures var p := Next(b, c, t, a, x, assignee, maxResult);
      var q := Next(b, c, t, a, y, assignee, maxResult); (p.Ok? <==> q.Ok?) && (p.Ok? ==> p == q)
  {
  }

  /** Whatever is decided is lawful and satisfies the replay's rules, below the last safe revision in its persisted
      form too; only a change of dependencies can still fail the graph check. */
  lemma DecidedSound(b: Board, c: Caller, allowed: bool, id: TaskId, expectedRevision: nat, a: Action,
          assignee: Option<Text>, maxResult: nat)
    requires Inv(b) && Decided(b, c, allowed, id, expectedRevision, a, assignee, maxResult).Some?
    ensures var t := Decided(b, c, allowed, id, expectedRevision, a, assignee, maxResult).value;
      && allowed && Alive(b.tasks, id) && b.tasks[id].revision == expectedRevision
      && t.id == id && t.revision == expectedRevision + 1
      && Lawful(b, c, b.tasks[id], t.(revision := expectedRevision)) && t.status == Target(a, b.tasks[id], t)
      && TaskAllowed(b, t) && (TaskWellFormed(t) <==> expectedRevision < MAX_SAFE_INTEGER)
      && (!a.SetDependencies? ==> GraphOk(b.tasks[id := t]))
  {
    var t, blockers := b.tasks[id], Blockers(b.tasks, id, a);
    assert t.id == id;
    NextLawful(b, c, t, a, blockers, assignee, maxResult);
    NextAllowed(b, c, t, a, blockers, assignee, maxResult);
    NextFollows(b, c, t, a, blockers, assignee, maxResult);
    if !a.SetDependencies? {
      OnlyDependenciesChangeGraph(b, c, t, a, blockers, assignee, maxResult);
    }
  }

  // ----- New tasks -----

  function Created(b: Board, r: CreateRequest): Result<Task, Code> {
    match Required(r.subject, 200)
    case Err(code) => Err(code)
    case Ok(subject) =>
      match Required(r.description, 16_384)
      case Err(code) => Err(code)
      case Ok(description) =>
        match Optional(r.nonCodeCriteria, 16_384)
        case Err(code) => Err(code)
        case Ok(criteria) =>
          Ok(Task(Numbered(b.nextTaskNumber, 0), 1, subject, description, criteria, None, None, None, None,
                  Pending, None, r.blockedBy, Distinct(r.writeScopes), None))
  }

  /** A numbered id is only ever taken once the numbers have run out. */
  lemma NumbersRunOut(b: Board, zeros: nat)
    requires Inv(b) && Numbered(b.nextTaskNumber, zeros) in b.tasks
    ensures b.nextTaskNumber == MAX_SAFE_INTEGER
  {
    var id := Numbered(b.nextTaskNumber, zeros);
    assert After(id.number) <= b.nextTaskNumber;
  }

  /** A replay accepts every new task with sound blockers. */
  lemma CreatedAccepted(b: Board, t: Task)
    requires Inv(b) && t.id !in b.tasks && t.revision == 1 && t.status == Pending && t.result.None?
    requires t.id.Numbered? ==> t.id.number <= MAX_SAFE_INTEGER
    requires Stored(t.nonCodeCriteria) && Stored(t.reviewGate) && Consistent(t)
    requires t.reviewGate.Some? ==> |t.reviewGate.value| <= 128
    requires DependenciesOk(b.tasks, None, t.blockedBy)
    ensures TaskAccepted(b, t)
  {
    assert BlockersOk(b.tasks, t);
    CreateKeeps(b.tasks, t);
  }

  function Pinned(r: PinnedRequest): Result<Task, Code> {
    match Required(r.subject, 200)
    case Err(code) => Err(code)
    case Ok(subject) =>
      match Required(r.description, 16_384)
      case Err(code) => Err(code)
      case Ok(description) =>
        if r.nonCodeCriteria.Some? && r.reviewGate.Some? then Err(InvalidArgument) else
        match Optional(r.nonCodeCriteria, 16_384)
        case Err(code) => Err(code)
        case Ok(criteria) =>
          match Optional(r.reviewGate, 128)
          case Err(code) => Err(code)
          case Ok(gate) =>
            if r.factory.Some?
               && (r.factory.value.executionId != r.workflow.executionId || r.factory.value.stepId != r.workflow.stepId)
            then Err(InvalidArgument)
            else if r.review.Some? && criteria.None? then Err(InvalidArgument)
            else Ok(Task(Named("workflow-" + r.admissionKey), 1, subject, description, criteria, gate, Some(r.workflow),
                         r.factory, r.review, Pending, None, [], [], None))
  }

  /** Whether an admitted task was admitted with these very inputs. */
  predicate SamePinned(existing: Task, t: Task) {
    && existing.subject == t.subject && existing.description == t.description
    && existing.nonCodeCriteria == t.nonCodeCriteria && existing.reviewGate == t.reviewGate
    && existing.workflow == t.workflow && existing.review == t.review && existing.factory == t.factory
    && existing.blockedBy == [] && existing.writeScopes == []
  }

  /** A repeated admission brings the same inputs; a first one needs room. */
  predicate MayPin(m: Tasks, t: Task, maxTasks: nat) {
    if t.id in m then SamePinned(m[t.id], t) else |ActiveTasks(m)| < maxTasks
  }

  // ----- Accepted work -----

  /** What an acceptance rests on: the audited report of a task with non-code criteria, or the integration of
      one without, whose receipt exists only once it is merged. */
  datatype Evidence = Report(reportReceipt: Text) | Merged(integrationReceipt: Option<Text>) {
    const receipt: Option<Text> := if Report? then Some(reportReceipt) else integrationReceipt
  }

  function Accepted(t: Task, receipt: Text): Task {
    t.(revision := t.revision + 1, status := Completed, result := Some(receipt))
  }

  /** The task is one that this evidence is for. */
  predicate Evidenced(b: Board, id: TaskId, evidence: Evidence) {
    && id in b.tasks && evidence.receipt.Some? && b.tasks[id].factory.None?
    && (evidence.Report? <==> b.tasks[id].nonCodeCriteria.Some?)
  }

  /** A repeated acceptance, on the receipt that the task already has. */
  predicate AcceptedBefore(b: Board, id: TaskId, evidence: Evidence) {
    Evidenced(b, id, evidence) && b.tasks[id].status == Completed && b.tasks[id].result == evidence.receipt
  }

  /** A first acceptance: an unowned pending task, unchanged since it was read, whose prerequisites are completed. */
  predicate MayAccept(b: Board, id: TaskId, expectedRevision: nat, evidence: Evidence, maxLength: nat) {
    && Evidenced(b, id, evidence)
    && b.tasks[id].revision == expectedRevision && b.tasks[id].status == Pending && b.tasks[id].ownerId.None?
    && Ready(b.tasks, b.tasks[id])
    && !Blank(evidence.receipt.value) && |Trim(evidence.receipt.value)| <= maxLength
  }

  /** Acceptance never touches the graph, which is why it needs no graph check of its own. */
  lemma AcceptedAllowed(b: Board, t: Task, receipt: Text)
    requires Inv(b) && t.id in b.tasks && b.tasks[t.id] == t && t.status == Pending && t.ownerId.None?
             && TaskReady(b.tasks, t)
    requires !Blank(receipt)
    ensures TaskAllowed(b, Accepted(t, receipt)) && GraphOk(b.tasks[t.id := Accepted(t, receipt)])
    ensures TaskWellFormed(Accepted(t, receipt)) <==> t.revision < MAX_SAFE_INTEGER
  {
    SameGraph(b.tasks, Accepted(t, receipt));
  }

  lemma RevisionInRange(b: Board, id: TaskId)
    requires Inv(b) && id in b.tasks
    ensures b.tasks[id].revision <= MAX_SAFE_INTEGER
  {
    assert TaskWellFormed(b.tasks[id]);
  }

  // ----- The commands -----

  class TeamTaskBoard {
    const journal: TeamProjection
    const maxTasks: nat
    const maxResultLength: nat

    ghost predicate Valid()
      reads this, journal
    {
      journal.Valid() && !journal.failed && Inv(journal.Contents())
    }

    constructor (journal: TeamProjection, maxTasks: nat, maxResultLength: nat)
      requires journal.Valid() && !journal.failed && Inv(journal.Contents())
      ensures Valid() && this.journal == journal && this.maxTasks == maxTasks && this.maxResultLength == maxResultLength
    {
      this.journal, this.maxTasks, this.maxResultLength := journal, maxTasks, maxResultLength;
    }

    method CheckGraph(t: Task) returns (r: Result<Task, Code>)
      ensures r.Ok? <==> GraphOk(journal.Contents().tasks[t.id := t])
      ensures r.Ok? ==> r.value == t
    {
      var violation := AssertTaskGraphCandidate(journal.tasks, t);
      r := if violation.Some? then Err(ErrorCode(violation.value)) else Ok(t);
    }

    /** Append an event that the replay accepts. */
    method Append(t: Task)
      requires Valid() && TaskAccepted(journal.Contents(), t)
      modifies journal
      ensures Valid() && journal.Contents() == WithTask(old(journal.Contents()), t)
    {
      TaskKeeps(journal.Contents(), t);
      journal.Apply(TaskEvent(t));
    }

    method Create(c: Caller, request: CreateRequest) returns (r: Result<Task, Code>)
      requires Valid()
      modifies journal
      ensures Valid()
      ensures r.Err? ==> journal.State() == old(journal.State())
      ensures r.Ok? ==> Created(old(journal.Contents()), request) == r
                        && r.value.id !in old(journal.Contents()).tasks
                        && journal.Contents() == WithTask(old(journal.Contents()), r.value)
      ensures r.Ok? <==> && (c.lead || request.nonCodeCriteria.None?)
                         && |ActiveTasks(old(journal.Contents()).tasks)| < maxTasks
                         && Numbered(old(journal.nextTaskNumber), 0) !in old(journal.Contents()).tasks
                         && Created(old(journal.Contents()), request).Ok?
                         && DependenciesOk(old(journal.Contents()).tasks, None, request.blockedBy)
    {
      if request.nonCodeCriteria.Some? && !c.lead {
        return Err(LeadOnly);
      }
      var state := journal.Contents();
      if |ActiveTasks(state.tasks)| >= maxTasks || Numbered(state.nextTaskNumber, 0) in state.tasks {
        return Err(LimitReached);
      }
      r := Created(state, request);
      if r.Err? {
        return;
      }
      var blockers := CheckDependencies(state.tasks, None, request.blockedBy);
      if blockers.Err? {
        return Err(blockers.error);
      }
      CreatedAccepted(state, r.value);
      r := CheckGraph(r.value);
      if r.Err? {
        return;
      }
      Append(r.value);
    }

    /** Admission is idempotent: the key is the id, and the same key with other inputs is refused. */
    method CreatePinned(c: Caller, request: PinnedRequest) returns (r: Result<Task, Code>)
      requires Valid()
      modifies journal
      ensures Valid()
      ensures r.Ok? <==> && c.lead && Pinned(request).Ok?
                         && MayPin(old(journal.Contents()).tasks, Pinned(request).value, maxTasks)
      ensures r.Err? ==> journal.State() == old(journal.State())
      ensures r.Ok? ==> Pinned(request).Ok? && c.lead && SamePinned(r.value, Pinned(request).value)
      ensures r.Ok? && Pinned(request).value.id in old(journal.Contents()).tasks ==>
                journal.State() == old(journal.State())
                && r.value == old(journal.Contents()).tasks[Pinned(request).value.id]
      ensures r.Ok? && Pinned(request).value.id !in old(journal.Contents()).tasks ==>
                r == Pinned(request) && journal.Contents() == WithTask(old(journal.Contents()), r.value)
    {
      if !c.lead {
        return Err(LeadOnly);
      }
      r := Pinned(request);
      if r.Err? {
        return;
      }
      var state := journal.Contents();
      if r.value.id in state.tasks {
        var existing := state.tasks[r.value.id];
        if !SamePinned(existing, r.value) {
          return Err(InvalidArgument);
        }
        return Ok(existing);
      }
      if |ActiveTasks(state.tasks)| >= maxTasks {
        return Err(LimitReached);
      }
      CreatedAccepted(state, r.value);
      r := CheckGraph(r.value);
      if r.Err? {
        return;
      }
      Append(r.value);
    }

    /** Accept a task on evidence from elsewhere. It stops the projection exactly when it writes on top of the
        last revision. */
    method Accept(c: Caller, granted: bool, id: TaskId, expectedRevision: nat, evidence: Evidence)
      returns (r: Result<Task, Code>)
      requires Valid()
      modifies journal
      ensures journal.Valid() && Inv(journal.Contents())
      ensures journal.failed <==> r == Err(ProjectionFailed)
      ensures journal.failed <==> c.lead && granted && expectedRevision == MAX_SAFE_INTEGER
                                  && MayAccept(old(journal.Contents()), id, expectedRevision, evidence, maxResultLength)
      ensures r.Ok? <==> c.lead && granted
                         && (|| AcceptedBefore(old(journal.Contents()), id, evidence)
                             || (MayAccept(old(journal.Contents()), id, expectedRevision, evidence, maxResultLength)
                                 && expectedRevision < MAX_SAFE_INTEGER))
      ensures r.Err? ==> journal.Contents() == old(journal.Contents())
      ensures r.Ok? && AcceptedBefore(old(journal.Contents()), id, evidence) ==>
                journal.State() == old(journal.State()) && r.value == old(journal.Contents()).tasks[id]
      ensures r.Ok? && !AcceptedBefore(old(journal.Contents()), id, evidence) ==>
                && r.value == Accepted(old(journal.Contents()).tasks[id], Trim(evidence.receipt.value))
                && journal.Contents() == WithTask(old(journal.Contents()), r.value)
    {
      if !c.lead {
        return Err(LeadOnly);
      }
      if !granted {
        return Err(Managed);
      }
      var state := journal.Contents();
      if id in state.tasks && state.tasks[id].factory.Some? {
        return Err(Managed);
      }
      if evidence.Report? {
        if id !in state.tasks || state.tasks[id].nonCodeCriteria.None? {
          return Err(InvalidTransition);
        }
      } else if id in state.tasks && state.tasks[id].nonCodeCriteria.Some? {
        return Err(InvalidTransition);
      }
      if id !in state.tasks || evidence.receipt.None? {
        return Err(IntegrationConflict);
      }
      var task := state.tasks[id];
      if task.status == Completed && task.result == evidence.receipt {
        return Ok(task);
      }
      if task.revision != expectedRevision || task.status != Pending || task.ownerId.Some?
         || !TaskReady(state.tasks, task) {
        return Err(InvalidTransition);
      }
      r := AppendAccepted(task, evidence.receipt.value);
    }

    /** Append a snapshot that the replay refuses only for its revision. */
    method Write(task: Task)
      requires Valid() && TaskAllowed(journal.Contents(), task) && GraphOk(journal.Contents().tasks[task.id := task])
      requires TaskWellFormed(task) <==> task.revision <= MAX_SAFE_INTEGER
      modifies journal
      ensures journal.Valid() && Inv(journal.Contents())
      ensures journal.failed <==> task.revision > MAX_SAFE_INTEGER
      ensures journal.Contents() == if journal.failed then old(journal.Contents())
                                    else WithTask(old(journal.Contents()), task)
    {
      if task.revision <= MAX_SAFE_INTEGER {
        TaskKeeps(journal.Contents(), task);
      }
      journal.Apply(TaskEvent(task));
    }

    method AppendAccepted(task: Task, receipt: Text) returns (r: Result<Task, Code>)
      requires Valid() && task.id in journal.Contents().tasks && journal.Contents().tasks[task.id] == task
      requires task.status == Pending && task.ownerId.None? && TaskReady(journal.Contents().tasks, task)
      modifies journal
      ensures journal.Valid() && Inv(journal.Contents())
      ensures journal.failed <==> r == Err(ProjectionFailed)
      ensures journal.failed <==>
                task.revision == MAX_SAFE_INTEGER && !Blank(receipt) && |Trim(receipt)| <= maxResultLength
      ensures r.Ok? <==> task.revision < MAX_SAFE_INTEGER && !Blank(receipt) && |Trim(receipt)| <= maxResultLength
      ensures r.Err? ==> journal.Contents() == old(journal.Contents())
      ensures r.Ok? ==>
                r.value == Accepted(task, Trim(receipt))
                && journal.Contents() == WithTask(old(journal.Contents()), r.value)
    {
      var text := Required(receipt, maxResultLength);
      if text.Err? {
        return Err(text.error);
      }
      AcceptedAllowed(journal.Contents(), task, text.value);
      RevisionInRange(journal.Contents(), task.id);
      var accepted := Accepted(task, text.value);
      Write(accepted);
      r := if journal.failed then Err(ProjectionFailed) else Ok(accepted);
    }

    /** Decide one authorized transition against the current state. */
    method Transition(state: Board, c: Caller, allowed: bool, id: TaskId, expectedRevision: nat, a: Action,
            assignee: Option<Text>)
      returns (r: Result<Task, Code>)
      requires Inv(state)
      ensures r.Ok? <==> Decided(state, c, allowed, id, expectedRevision, a, assignee, maxResultLength).Some?
      ensures r.Ok? ==> Decided(state, c, allowed, id, expectedRevision, a, assignee, maxResultLength) == Some(r.value)
      ensures !allowed ==> r == Err(Managed)
      ensures allowed && id !in state.tasks ==> r == Err(NotFound)
      ensures allowed && id in state.tasks && state.tasks[id].revision != expectedRevision ==> r == Err(StaleRevision)
      ensures allowed && id in state.tasks && state.tasks[id].revision == expectedRevision
              && state.tasks[id].status == Deleted ==>
                r == Err(TaskDeleted)
    {
      if !allowed {
        return Err(Managed);
      }
      if id !in state.tasks {
        return Err(NotFound);
      }
      var current := state.tasks[id];
      if current.revision != expectedRevision {
        return Err(StaleRevision);
      }
      if current.status == Deleted {
        return Err(TaskDeleted);
      }
      if !a.Delete? && current.factory.Some? {
        return Err(Managed);
      }
      var blockers := Err(InvalidArgument);
      if a.SetDependencies? && a.blockedBy.Some? {
        blockers := CheckDependencies(state.tasks, Some(id), a.blockedBy.value);
      }
      NextBeyondCodes(state, c, current, a, blockers, Blockers(state.tasks, id, a), assignee, maxResultLength);
      r := Next(state, c, current, a, blockers, assignee, maxResultLength);
      if r.Ok? {
        r := Ok(Raised(r.value));
      }
    }

    /** Compare and set one authorized transition. It stops the projection exactly when it writes on top of
        the last revision. */
    method Update(c: Caller, allowed: bool, id: TaskId, expectedRevision: nat, a: Action, assignee: Option<Text>)
      returns (r: Result<Task, Code>)
      requires Valid()
      modifies journal
      ensures journal.Valid() && Inv(journal.Contents())
      ensures r.Err? ==> journal.State() == old(journal.State())
      ensures var decided := Decided(old(journal.Contents()), c, allowed, id, expectedRevision, a, assignee,
                                     maxResultLength);
        && (r.Ok? <==> Writes(old(journal.Contents()).tasks, id, a, decided))
        && (r.Ok? ==> decided == Some(r.value))
        && (journal.failed <==>
              Writes(old(journal.Contents()).tasks, id, a, decided) && expectedRevision == MAX_SAFE_INTEGER)
      ensures r.Ok? && !journal.failed ==> journal.Contents() == WithTask(old(journal.Contents()), r.value)
      ensures journal.failed ==> journal.Contents() == old(journal.Contents())
    {
      var state := journal.Contents();
      r := Transition(state, c, allowed, id, expectedRevision, a, assignee);
      if r.Ok? {
        DecidedSound(state, c, allowed, id, expectedRevision, a, assignee, maxResultLength);
        RevisionInRange(state, id);
        r := AppendNext(r.value);
      }
    }

    method AppendNext(task: Task) returns (r: Result<Task, Code>)
      requires Valid() && TaskAllowed(journal.Contents(), task)
      requires TaskWellFormed(task) <==> task.revision <= MAX_SAFE_INTEGER
      modifies journal
      ensures journal.Valid() && Inv(journal.Contents())
      ensures r.Ok? <==> GraphOk(old(journal.Contents()).tasks[task.id := task])
      ensures r.Err? ==> journal.State() == old(journal.State())
      ensures r.Ok? ==> r.value == task
      ensures journal.failed <==> r.Ok? && task.revision > MAX_SAFE_INTEGER
      ensures r.Ok? && !journal.failed ==> journal.Contents() == WithTask(old(journal.Contents()), task)
      ensures journal.failed ==> journal.Contents() == old(journal.Contents())
    {
      r := CheckGraph(task);
      if r.Err? {
        return;
      }
      Write(task);
    }
  }
}
