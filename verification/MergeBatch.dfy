/** The merge batch as a log of events: what the durable snapshot, the Git target and the
    running process can do, one event at a time. Every crash point lies between two events. */
module MergeBatchModel {
  import opened Wrappers

  type SubmissionId = string

  /** A commit is its hash together with the hashes of everything it contains, itself included. */
  datatype Commit = Commit(hash: nat, history: set<nat>)

  datatype Prerequisite = Prerequisite(id: SubmissionId, source: nat)

  datatype Submission = Submission(id: SubmissionId, source: nat, dependsOn: seq<SubmissionId>,
                                   acceptedPrerequisites: seq<Prerequisite>)

  datatype Policy = Policy(maxCandidates: nat, maxSplitAttempts: nat)

  datatype Batch = Batch(submissions: seq<Submission>, policy: Policy)

  datatype Outcome = Pending | Accepted | Rejected | Blocked

  datatype Prepared = Prepared(ids: seq<SubmissionId>, target: Commit, candidate: Commit)

  /** The journaled snapshot. */
  datatype BatchState = BatchState(attempts: nat, outcomes: map<SubmissionId, Outcome>,
                                   prepared: Option<Prepared>, promotedCandidates: seq<Commit>)

  // ----- Git facts -----

  /** The branch moves only to itself or to a commit that contains it and that it does not contain. */
  predicate Forward(before: Commit, after: Commit) {
    after == before ||
    (before.history <= after.history && after.hash in after.history && after.hash !in before.history)
  }

  /** Merging sources onto a target gives the target itself or a later commit that contains them all. */
  predicate Composes(target: Commit, sources: set<nat>, candidate: Commit) {
    Forward(target, candidate) && sources <= candidate.history
  }

  // ----- Admission -----

  function Position(submissions: seq<Submission>, id: SubmissionId): (p: nat)
    ensures p <= |submissions|
    ensures p < |submissions| ==> submissions[p].id == id
    ensures forall i :: 0 <= i < p ==> submissions[i].id != id
  {
    PositionFrom(submissions, id, 0)
  }

  function PositionFrom(submissions: seq<Submission>, id: SubmissionId, start: nat): (p: nat)
    requires start <= |submissions|
    ensures start <= p <= |submissions|
    ensures p < |submissions| ==> submissions[p].id == id
    ensures forall i :: start <= i < p ==> submissions[i].id != id
    decreases |submissions| - start
  {
    if start == |submissions| || submissions[start].id == id then start else PositionFrom(submissions, id, start + 1)
  }

  /** Unique identities, dependencies inside the batch and before their dependents, limits respected. */
  predicate Admissible(b: Batch) {
    && 0 < |b.submissions| <= b.policy.maxCandidates
    && 0 < b.policy.maxSplitAttempts
    && (forall i, j :: 0 <= i < j < |b.submissions| ==> b.submissions[i].id != b.submissions[j].id)
    && (forall i :: 0 <= i < |b.submissions| ==>
          forall d :: d in b.submissions[i].dependsOn ==> Position(b.submissions, d) < i)
  }

  predicate Member(b: Batch, id: SubmissionId) {
    Position(b.submissions, id) < |b.submissions|
  }

  function Find(b: Batch, id: SubmissionId): (s: Submission)
    requires Member(b, id)
    ensures s.id == id
  {
    b.submissions[Position(b.submissions, id)]
  }

  function Sources(b: Batch, ids: seq<SubmissionId>): set<nat> {
    set id | id in ids && Member(b, id) :: Find(b, id).source
  }

  /** The sources whose earlier acceptance these submissions rely on. */
  function Receipts(b: Batch, ids: seq<SubmissionId>): set<nat> {
    set id, p | id in ids && Member(b, id) && p in Find(b, id).acceptedPrerequisites :: p.source
  }

  function Initial(b: Batch): BatchState {
    BatchState(0, map i | 0 <= i < |b.submissions| :: b.submissions[i].id := Pending, None, [])
  }

  predicate Settled(o: Outcome) { o != Pending }

  predicate Excluded(o: Outcome) { o == Rejected || o == Blocked }

  // ----- Events -----

  /** What one composition check concluded: `None` when a merge or a verification command failed. */
  datatype Check = Check(ids: seq<SubmissionId>, target: Commit, candidate: Option<Commit>)

  datatype Event =
    | Restart
    | Foreign(target: Commit)
    | Attempt
    | TargetRead
    | Verified(ids: seq<SubmissionId>, candidate: Option<Commit>)
    | BlockExcluded(id: SubmissionId, prerequisite: SubmissionId)
    | BlockBudget(id: SubmissionId)
    | BlockAbsent(id: SubmissionId, receipt: Prerequisite)
    | Reject(id: SubmissionId)
    | Prepare(prepared: Prepared)
    | TargetChecked
    | Promote
    | AlreadyPromoted
    | Refuse
    | Accept
    | Drop

  /** The durable snapshot, the branch, what the running process remembers, and counters over the log. */
  datatype World = World(
    durable: BatchState, target: Commit,
    directory: bool, read: Option<Commit>, check: Option<Check>, checked: bool, landed: bool, refused: bool,
    moves: seq<Commit>, verifies: nat, refusals: nat, budgetBlocks: nat)

  function Start(b: Batch, target: Commit): World {
    World(Initial(b), target, false, None, None, false, false, false, [], 0, 0, 0)
  }

  predicate PendingIn(s: BatchState, id: SubmissionId) {
    id in s.outcomes && s.outcomes[id] == Pending
  }

  function WithOutcome(w: World, id: SubmissionId, o: Outcome): World {
    w.(durable := w.durable.(outcomes := w.durable.outcomes[id := o]))
  }

  function Accepting(s: BatchState, ids: seq<SubmissionId>): map<SubmissionId, Outcome> {
    map id | id in s.outcomes :: if id in ids then Accepted else s.outcomes[id]
  }

  /** Receipts the target must prove for one submission: recorded ones, then accepted dependencies. */
  function Prerequisites(b: Batch, s: BatchState, id: SubmissionId): seq<Prerequisite>
    requires Member(b, id)
  {
    Find(b, id).acceptedPrerequisites + AcceptedDependencies(b, s, Find(b, id).dependsOn)
  }

  function AcceptedDependencies(b: Batch, s: BatchState, ids: seq<SubmissionId>): seq<Prerequisite> {
    if ids == [] then []
    else (if Member(b, ids[0]) && ids[0] in s.outcomes && s.outcomes[ids[0]] == Accepted
          then [Prerequisite(ids[0], Find(b, ids[0]).source)] else [])
         + AcceptedDependencies(b, s, ids[1..])
  }

  predicate MayPrepare(b: Batch, w: World, p: Prepared) {
    && w.check == Some(Check(p.ids, p.target, Some(p.candidate)))
    && w.durable.prepared.None?
    && (forall id :: id in p.ids ==> Member(b, id) && PendingIn(w.durable, id))
    && (forall id :: id in p.ids ==> forall d :: d in Find(b, id).dependsOn ==>
          d in p.ids || (d in w.durable.outcomes && w.durable.outcomes[d] == Accepted))
  }

  /** One event, or `None` when the protocol does not allow it in this world. */
  function Apply(b: Batch, w: World, e: Event): Option<World> {
    match e
    case Restart =>
      Some(w.(directory := false, read := None, check := None, checked := false, landed := false, refused := false))
    case Foreign(t) =>
      if Forward(w.target, t) then Some(w.(target := t)) else None
    case Attempt =>
      if w.durable.attempts < b.policy.maxSplitAttempts && w.durable.prepared.None?
      then Some(w.(durable := w.durable.(attempts := w.durable.attempts + 1),
                   directory := true, read := None, check := None))
      else None
    case TargetRead =>
      Some(w.(read := Some(w.target), check := None))
    case Verified(ids, candidate) =>
      if w.directory && w.read.Some? && Receipts(b, ids) <= w.read.value.history
         && (candidate.Some? ==> Composes(w.read.value, Sources(b, ids), candidate.value))
      then Some(w.(directory := false, check := Some(Check(ids, w.read.value, candidate)), verifies := w.verifies + 1))
      else None
    case BlockExcluded(id, d) =>
      if Member(b, id) && PendingIn(w.durable, id) && w.durable.prepared.None? && d in Find(b, id).dependsOn
         && d in w.durable.outcomes && Excluded(w.durable.outcomes[d])
      then Some(WithOutcome(w, id, Blocked)) else None
    case BlockBudget(id) =>
      if PendingIn(w.durable, id) && w.durable.prepared.None? && w.durable.attempts >= b.policy.maxSplitAttempts
      then Some(WithOutcome(w, id, Blocked).(budgetBlocks := w.budgetBlocks + 1)) else None
    case BlockAbsent(id, p) =>
      if Member(b, id) && PendingIn(w.durable, id) && w.durable.prepared.None?
         && p in Prerequisites(b, w.durable, id) && w.read.Some?
      then Some(WithOutcome(w, id, Blocked)) else None
    case Reject(id) =>
      if PendingIn(w.durable, id) && w.durable.prepared.None?
         && w.check.Some? && w.check.value.ids == [id] && w.check.value.candidate.None?
      then Some(WithOutcome(w, id, Rejected)) else None
    case Prepare(p) =>
      if MayPrepare(b, w, p)
      then Some(w.(durable := w.durable.(prepared := Some(p)), checked := false, landed := false, refused := false))
      else None
    case TargetChecked =>
      if w.durable.prepared.Some? && w.target == w.durable.prepared.value.target
      then Some(w.(checked := true)) else None
    case Promote =>
      if w.durable.prepared.Some? && w.checked && w.target != w.durable.prepared.value.candidate
         && Forward(w.target, w.durable.prepared.value.candidate)
      then Some(w.(target := w.durable.prepared.value.candidate, checked := false, landed := true,
                   moves := w.moves + [w.durable.prepared.value.candidate])) else None
    case AlreadyPromoted =>
      if w.durable.prepared.Some?
         && (|| w.target == w.durable.prepared.value.candidate
             || (w.checked && w.durable.prepared.value.candidate.history <= w.target.history))
      then Some(w.(landed := true)) else None
    case Refuse =>
      if w.durable.prepared.Some? && w.target != w.durable.prepared.value.candidate
         && w.target != w.durable.prepared.value.target
      then Some(w.(checked := false, refused := true, refusals := w.refusals + 1)) else None
    case Accept =>
      if w.durable.prepared.Some? && w.landed
      then var p := w.durable.prepared.value;
           Some(w.(durable := w.durable.(outcomes := Accepting(w.durable, p.ids), prepared := None,
                                         promotedCandidates := w.durable.promotedCandidates + [p.candidate]),
                   checked := false, landed := false, refused := false))
      else None
    case Drop =>
      if w.durable.prepared.Some? && w.refused
      then Some(w.(durable := w.durable.(prepared := None), checked := false, landed := false, refused := false))
      else None
  }

  /** The world after a log, or `None` when some event of it was not allowed. */
  function Exec(b: Batch, target: Commit, log: seq<Event>): Option<World> {
    if log == [] then Some(Start(b, target))
    else match Exec(b, target, log[..|log| - 1])
         case None => None
         case Some(w) => Apply(b, w, log[|log| - 1])
  }

  lemma ExecOne(b: Batch, target: Commit, log: seq<Event>, w: World, e: Event)
    requires Exec(b, target, log) == Some(w)
    ensures Exec(b, target, log + [e]) == Apply(b, w, e)
  {
    assert (log + [e])[..|log|] == log;
  }

  // ----- What every reachable world keeps -----

  ghost predicate Known(b: Batch, s: BatchState) {
    forall id :: id in s.outcomes <==> Member(b, id)
  }

  /** An accepted submission has every prerequisite accepted. */
  ghost predicate Closed(b: Batch, outcomes: map<SubmissionId, Outcome>) {
    forall id, d :: id in outcomes && outcomes[id] == Accepted && Member(b, id) && d in Find(b, id).dependsOn ==>
      d in outcomes && outcomes[d] == Accepted
  }

  /** The branch contains every accepted submission's source and the receipts it relied on. */
  ghost predicate Contained(b: Batch, outcomes: map<SubmissionId, Outcome>, target: Commit) {
    forall id :: id in outcomes && outcomes[id] == Accepted && Member(b, id) ==>
      Find(b, id).source in target.history && Receipts(b, [id]) <= target.history
  }

  ghost predicate Landable(b: Batch, s: BatchState, p: Prepared) {
    && Composes(p.target, Sources(b, p.ids), p.candidate)
    && Receipts(b, p.ids) <= p.target.history
    && (forall id :: id in p.ids ==> Member(b, id) && PendingIn(s, id))
    && (forall id, d :: id in p.ids && d in Find(b, id).dependsOn ==>
          d in p.ids || (d in s.outcomes && s.outcomes[d] == Accepted))
  }

  ghost predicate Budgeted(b: Batch, w: World) {
    && w.durable.attempts <= b.policy.maxSplitAttempts
    && w.verifies + (if w.directory then 1 else 0) <= w.durable.attempts
  }

  /** What the process remembers is about targets the branch has passed through. */
  ghost predicate Remembered(b: Batch, w: World) {
    && (w.read.Some? ==> w.read.value.history <= w.target.history)
    && (w.check.Some? && w.check.value.candidate.Some? ==>
          Composes(w.check.value.target, Sources(b, w.check.value.ids), w.check.value.candidate.value)
          && Receipts(b, w.check.value.ids) <= w.check.value.target.history)
    && (w.checked ==> w.durable.prepared.Some? && w.durable.prepared.value.target.history <= w.target.history)
    && (w.landed ==> w.durable.prepared.Some? && w.durable.prepared.value.candidate.history <= w.target.history)
  }

  ghost predicate Passed(commits: seq<Commit>, target: Commit) {
    forall c :: c in commits ==> c.history <= target.history
  }

  ghost predicate Inv(b: Batch, w: World) {
    && Known(b, w.durable)
    && Budgeted(b, w)
    && Closed(b, w.durable.outcomes)
    && Contained(b, w.durable.outcomes, w.target)
    && Remembered(b, w)
    && Passed(w.moves, w.target)
    && Passed(w.durable.promotedCandidates, w.target)
    && (w.durable.prepared.Some? ==> Landable(b, w.durable, w.durable.prepared.value))
  }

  lemma StartKeeps(b: Batch, target: Commit)
    requires Admissible(b)
    ensures Inv(b, Start(b, target))
  {
  }

  /** A forward move of the branch, by anyone, loses nothing. */
  lemma TargetKeeps(b: Batch, w: World, t: Commit)
    requires Inv(b, w) && Forward(w.target, t)
    ensures Inv(b, w.(target := t))
  {
    var w' := w.(target := t);
    assert w.target.history <= t.history;
    assert w'.durable == w.durable;
    assert Contained(b, w'.durable.outcomes, w'.target);
    assert Remembered(b, w');
  }

  /** Accepting the prepared stack leaves no prerequisite behind. */
  lemma AcceptCloses(b: Batch, s: BatchState, p: Prepared)
    requires Closed(b, s.outcomes) && Landable(b, s, p) && Known(b, s)
    ensures Closed(b, Accepting(s, p.ids))
  {
    var o := Accepting(s, p.ids);
    forall id, d | id in o && o[id] == Accepted && Member(b, id) && d in Find(b, id).dependsOn
      ensures d in o && o[d] == Accepted
    {
      if id in p.ids {
        assert d in p.ids || (d in s.outcomes && s.outcomes[d] == Accepted);
        assert d in p.ids ==> Member(b, d);
      } else {
        assert s.outcomes[id] == Accepted;
      }
    }
  }

  /** Landing the prepared stack: its members' sources are in the candidate. */
  lemma AcceptKeeps(b: Batch, w: World)
    requires Inv(b, w) && w.durable.prepared.Some? && w.landed
    ensures var p := w.durable.prepared.value; var o := Accepting(w.durable, p.ids);
            Closed(b, o) && Contained(b, o, w.target)
  {
    var p := w.durable.prepared.value;
    var o := Accepting(w.durable, p.ids);
    AcceptCloses(b, w.durable, p);
    forall id | id in o && o[id] == Accepted && Member(b, id)
      ensures Find(b, id).source in w.target.history && Receipts(b, [id]) <= w.target.history
    {
      if id in p.ids {
        assert Find(b, id).source in Sources(b, p.ids);
        assert Receipts(b, [id]) <= Receipts(b, p.ids);
      }
    }
  }

  /** Settling one pending submission without accepting it. */
  lemma SettleKeeps(b: Batch, w: World, id: SubmissionId, o: Outcome)
    requires Inv(b, w) && PendingIn(w.durable, id) && w.durable.prepared.None? && Excluded(o)
    ensures Inv(b, WithOutcome(w, id, o))
  {
    var w' := WithOutcome(w, id, o);
    assert forall x :: x in w'.durable.outcomes && w'.durable.outcomes[x] == Accepted ==>
        x in w.durable.outcomes && w.durable.outcomes[x] == Accepted;
    assert Closed(b, w'.durable.outcomes);
  }

  /** Recording a verified composition before it may be promoted. */
  lemma PrepareKeeps(b: Batch, w: World, p: Prepared)
    requires Inv(b, w) && Apply(b, w, Prepare(p)).Some?
    ensures Inv(b, Apply(b, w, Prepare(p)).value)
  {
    assert Landable(b, w.durable, p);
  }

  lemma PromoteKeeps(b: Batch, w: World)
    requires Inv(b, w) && Apply(b, w, Promote).Some?
    ensures Inv(b, Apply(b, w, Promote).value)
  {
    var p := w.durable.prepared.value;
    TargetKeeps(b, w, p.candidate);
  }

  lemma ApplyKeeps(b: Batch, w: World, e: Event)
    requires Inv(b, w) && Apply(b, w, e).Some?
    ensures Inv(b, Apply(b, w, e).value)
  {
    match e
    case BlockExcluded(id, _) => SettleKeeps(b, w, id, Blocked);
    case BlockBudget(id) => SettleKeeps(b, w, id, Blocked);
    case BlockAbsent(id, _) => SettleKeeps(b, w, id, Blocked);
    case Reject(id) => SettleKeeps(b, w, id, Rejected);
    case Accept => AcceptKeeps(b, w);
    case Foreign(t) => TargetKeeps(b, w, t);
    case Promote => PromoteKeeps(b, w);
    case Prepare(p) => PrepareKeeps(b, w, p);
    case _ =>
  }

  // ----- Whole runs: any log, with crashes and foreign moves anywhere in it -----

  ghost predicate Legal(b: Batch, target: Commit, log: seq<Event>) {
    Admissible(b) && Exec(b, target, log).Some?
  }

  /** The world before event `i` of a legal log (after the last one when `i` is its length). */
  ghost function At(b: Batch, target: Commit, log: seq<Event>, i: nat): (w: World)
    requires Legal(b, target, log) && i <= |log|
  {
    LegalPrefix(b, target, log, i);
    Exec(b, target, log[..i]).value
  }

  lemma {:induction false} LegalPrefix(b: Batch, target: Commit, log: seq<Event>, i: nat)
    requires Legal(b, target, log) && i <= |log|
    ensures Legal(b, target, log[..i])
    decreases |log|
  {
    if i < |log| {
      LegalPrefix(b, target, log[..|log| - 1], i);
      assert log[..|log| - 1][..i] == log[..i];
    } else {
      assert log[..i] == log;
    }
  }

  lemma AtStep(b: Batch, target: Commit, log: seq<Event>, i: nat)
    requires Legal(b, target, log) && i < |log|
    ensures Apply(b, At(b, target, log, i), log[i]) == Some(At(b, target, log, i + 1))
  {
    LegalPrefix(b, target, log, i + 1);
    assert log[..i + 1][..i] == log[..i];
  }

  /** Every durable state of every run keeps the invariant, crash points included. */
  lemma {:induction false} RunKeeps(b: Batch, target: Commit, log: seq<Event>, i: nat)
    requires Legal(b, target, log) && i <= |log|
    ensures Inv(b, At(b, target, log, i))
  {
    if i == 0 {
      StartKeeps(b, target);
    } else {
      RunKeeps(b, target, log, i - 1);
      AtStep(b, target, log, i - 1);
      ApplyKeeps(b, At(b, target, log, i - 1), log[i - 1]);
    }
  }

  lemma ApplySettled(b: Batch, w: World, e: Event, id: SubmissionId)
    requires Inv(b, w) && Apply(b, w, e).Some? && id in w.durable.outcomes && Settled(w.durable.outcomes[id])
    ensures id in Apply(b, w, e).value.durable.outcomes
    ensures Apply(b, w, e).value.durable.outcomes[id] == w.durable.outcomes[id]
  {
  }

  /** One event settles pending submissions only, and never takes history from the branch. */
  lemma ApplyGrows(b: Batch, w: World, e: Event, id: SubmissionId)
    requires Inv(b, w) && Apply(b, w, e).Some?
    ensures w.target.history <= Apply(b, w, e).value.target.history
    ensures w.durable.attempts <= Apply(b, w, e).value.durable.attempts
    ensures id in w.durable.outcomes && Settled(w.durable.outcomes[id]) ==>
              id in Apply(b, w, e).value.durable.outcomes
              && Apply(b, w, e).value.durable.outcomes[id] == w.durable.outcomes[id]
  {
    ApplyForward(b, w, e);
    ApplyCheck(b, w, e);
    if id in w.durable.outcomes && Settled(w.durable.outcomes[id]) {
      ApplySettled(b, w, e, id);
    }
  }

  /** What one event can change, field by field. */
  lemma ApplyTarget(b: Batch, w: World, e: Event)
    requires Apply(b, w, e).Some? && Apply(b, w, e).value.target != w.target && !e.Foreign?
    ensures e.Promote? && w.checked && w.durable.prepared.Some? && Forward(w.target, w.durable.prepared.value.candidate)
    ensures Apply(b, w, e).value.target == w.durable.prepared.value.candidate
  {
  }

  /** Nobody ever moves the branch but forward. */
  lemma ApplyForward(b: Batch, w: World, e: Event)
    requires Apply(b, w, e).Some?
    ensures Forward(w.target, Apply(b, w, e).value.target)
  {
    if Apply(b, w, e).value.target != w.target && !e.Foreign? {
      ApplyTarget(b, w, e);
    }
  }

  lemma ApplyPrepared(b: Batch, w: World, e: Event)
    requires Apply(b, w, e).Some? && Apply(b, w, e).value.durable.prepared.Some?
    ensures Apply(b, w, e).value.durable.prepared == w.durable.prepared
            || e == Prepare(Apply(b, w, e).value.durable.prepared.value)
  {
  }

  lemma ApplyOutcome(b: Batch, w: World, e: Event, id: SubmissionId)
    requires Known(b, w.durable) && Member(b, id) && Apply(b, w, e).Some?
    ensures id in Apply(b, w, e).value.durable.outcomes
    ensures Apply(b, w, e).value.durable.outcomes[id] == Accepted <==>
              w.durable.outcomes[id] == Accepted || Accepts(w, e, id)
  {
    if e.Restart? || e.Foreign? || e.Attempt? || e.TargetRead? || e.Verified? {
      assert Apply(b, w, e).value.durable.outcomes == w.durable.outcomes;
    }
  }

  lemma ApplyRejection(b: Batch, w: World, e: Event, id: SubmissionId)
    requires Known(b, w.durable) && Member(b, id) && Apply(b, w, e).Some?
    requires id in Apply(b, w, e).value.durable.outcomes && Apply(b, w, e).value.durable.outcomes[id] == Rejected
    ensures w.durable.outcomes[id] == Rejected
            || (w.check.Some? && w.check.value.ids == [id] && w.check.value.candidate.None?)
  {
    match e
    case Reject(_) =>
    case _ => assert w.durable.outcomes[id] == Rejected;
  }

  predicate Accepts(w: World, e: Event, id: SubmissionId) {
    e == Accept && w.durable.prepared.Some? && id in w.durable.prepared.value.ids
  }

  lemma ApplyCheck(b: Batch, w: World, e: Event)
    requires Apply(b, w, e).Some?
    ensures var w' := Apply(b, w, e).value;
      && (w'.check.Some? && w'.check != w.check ==> e == Verified(w'.check.value.ids, w'.check.value.candidate))
      && w'.durable.attempts == w.durable.attempts + (if e.Attempt? then 1 else 0)
      && w'.verifies == w.verifies + (if e.Verified? then 1 else 0)
      && (w'.directory ==> e.Attempt? || (w.directory && !e.Verified?))
  {
  }

  /** A settled outcome never changes again, and the branch never loses a commit. */
  lemma {:induction false} SettledForever(b: Batch, target: Commit, log: seq<Event>, i: nat, j: nat, id: SubmissionId)
    requires Legal(b, target, log) && i <= j <= |log|
    ensures At(b, target, log, i).target.history <= At(b, target, log, j).target.history
    ensures At(b, target, log, i).durable.attempts <= At(b, target, log, j).durable.attempts
    ensures var before := At(b, target, log, i).durable.outcomes; var after := At(b, target, log, j).durable.outcomes;
            id in before && Settled(before[id]) ==> id in after && after[id] == before[id]
    decreases j
  {
    if i < j {
      SettledForever(b, target, log, i, j - 1, id);
      RunKeeps(b, target, log, j - 1);
      AtStep(b, target, log, j - 1);
      ApplyGrows(b, At(b, target, log, j - 1), log[j - 1], id);
    }
  }

  /** An accepted submission's prerequisites are accepted, and from its acceptance on the branch
      contains its source commit and the receipts it relied on, whatever crashes and foreign moves come in between. */
  lemma AcceptedForever(b: Batch, target: Commit, log: seq<Event>, i: nat, j: nat, id: SubmissionId)
    requires Legal(b, target, log) && i <= j <= |log|
    requires Member(b, id) && id in At(b, target, log, i).durable.outcomes
    requires At(b, target, log, i).durable.outcomes[id] == Accepted
    ensures Find(b, id).source in At(b, target, log, j).target.history
    ensures Receipts(b, [id]) <= At(b, target, log, j).target.history
    ensures forall d :: d in Find(b, id).dependsOn ==>
              d in At(b, target, log, j).durable.outcomes && At(b, target, log, j).durable.outcomes[d] == Accepted
  {
    SettledForever(b, target, log, i, j, id);
    RunKeeps(b, target, log, j);
  }

  /** The prepared record in force comes from a `Prepare` event of this log. */
  lemma {:induction false} PreparedProvenance(b: Batch, target: Commit, log: seq<Event>, i: nat) returns (k: nat)
    requires Legal(b, target, log) && i <= |log| && At(b, target, log, i).durable.prepared.Some?
    ensures k < i && log[k] == Prepare(At(b, target, log, i).durable.prepared.value)
  {
    assert i > 0;
    AtStep(b, target, log, i - 1);
    ApplyPrepared(b, At(b, target, log, i - 1), log[i - 1]);
    if At(b, target, log, i - 1).durable.prepared == At(b, target, log, i).durable.prepared {
      k := PreparedProvenance(b, target, log, i - 1);
    } else {
      k := i - 1;
    }
  }

  /** The branch moves by someone else's push or, by a fast-forward, to the candidate of a prepared record that this
      log wrote earlier, whose composition contains the target it was checked against and every source. */
  lemma BranchMovesOnlyAsPrepared(b: Batch, target: Commit, log: seq<Event>, i: nat) returns (k: nat)
    requires Legal(b, target, log) && i < |log|
    requires At(b, target, log, i).target != At(b, target, log, i + 1).target && !log[i].Foreign?
    ensures k < i && log[k].Prepare?
    ensures Forward(At(b, target, log, i).target, log[k].prepared.candidate)
    ensures At(b, target, log, i + 1).target == log[k].prepared.candidate
    ensures At(b, target, log, i).durable.prepared == Some(log[k].prepared)
    ensures Composes(log[k].prepared.target, Sources(b, log[k].prepared.ids), log[k].prepared.candidate)
  {
    AtStep(b, target, log, i);
    RunKeeps(b, target, log, i);
    ApplyTarget(b, At(b, target, log, i), log[i]);
    k := PreparedProvenance(b, target, log, i);
  }

  /** No commit is promoted twice: once the branch has moved to it, the branch contains it. */
  lemma PromotedOnce(b: Batch, target: Commit, log: seq<Event>, i: nat, j: nat)
    requires Legal(b, target, log) && i < j < |log| && log[i].Promote? && log[j].Promote?
    ensures At(b, target, log, i + 1).target.hash != At(b, target, log, j + 1).target.hash
  {
    AtStep(b, target, log, i);
    AtStep(b, target, log, j);
    RunKeeps(b, target, log, i);
    RunKeeps(b, target, log, j);
    SettledForever(b, target, log, i + 1, j, "");
    var first, second := At(b, target, log, i + 1).target, At(b, target, log, j + 1).target;
    assert Forward(At(b, target, log, i).target, first);
    assert Forward(At(b, target, log, j).target, second);
    assert first.hash in At(b, target, log, j).target.history;
  }

  ghost predicate AcceptedAt(b: Batch, target: Commit, log: seq<Event>, k: nat, id: SubmissionId)
    requires Legal(b, target, log) && k < |log|
  {
    Accepts(At(b, target, log, k), log[k], id)
  }

  lemma AcceptedStep(b: Batch, target: Commit, log: seq<Event>, i: nat, id: SubmissionId)
    requires Legal(b, target, log) && i < |log| && Member(b, id)
    ensures id in At(b, target, log, i).durable.outcomes && id in At(b, target, log, i + 1).durable.outcomes
    ensures At(b, target, log, i + 1).durable.outcomes[id] == Accepted
       <==> At(b, target, log, i).durable.outcomes[id] == Accepted || AcceptedAt(b, target, log, i, id)
  {
    AtStep(b, target, log, i);
    RunKeeps(b, target, log, i);
    ApplyOutcome(b, At(b, target, log, i), log[i], id);
  }

  /** Acceptance is exactly membership of the prepared record in force when some event accepted it. */
  lemma {:induction false} AcceptedExactlyPrepared(b: Batch, target: Commit, log: seq<Event>, i: nat, id: SubmissionId)
    requires Legal(b, target, log) && i <= |log| && Member(b, id)
    ensures id in At(b, target, log, i).durable.outcomes
    ensures At(b, target, log, i).durable.outcomes[id] == Accepted
       <==> exists k | 0 <= k < i :: AcceptedAt(b, target, log, k, id)
  {
    if i == 0 {
      RunKeeps(b, target, log, i);
    } else {
      AcceptedExactlyPrepared(b, target, log, i - 1, id);
      AcceptedStep(b, target, log, i - 1, id);
    }
  }

  lemma RejectedStep(b: Batch, target: Commit, log: seq<Event>, i: nat, id: SubmissionId)
    requires Legal(b, target, log) && i < |log|
    requires id in At(b, target, log, i + 1).durable.outcomes
             && At(b, target, log, i + 1).durable.outcomes[id] == Rejected
    ensures id in At(b, target, log, i).durable.outcomes
    ensures At(b, target, log, i).durable.outcomes[id] == Rejected
         || (At(b, target, log, i).check.Some? && At(b, target, log, i).check.value.ids == [id]
             && At(b, target, log, i).check.value.candidate.None?)
  {
    AtStep(b, target, log, i);
    RunKeeps(b, target, log, i + 1);
    RunKeeps(b, target, log, i);
    ApplyRejection(b, At(b, target, log, i), log[i], id);
  }

  /** A rejected submission failed its checks alone; it is never charged with another's failure. */
  lemma {:induction false} RejectedAlone(b: Batch, target: Commit, log: seq<Event>, i: nat, id: SubmissionId)
    returns (k: nat)
    requires Legal(b, target, log) && i <= |log|
    requires id in At(b, target, log, i).durable.outcomes && At(b, target, log, i).durable.outcomes[id] == Rejected
    ensures k < i && log[k] == Verified([id], None)
  {
    assert i > 0;
    RejectedStep(b, target, log, i - 1, id);
    if At(b, target, log, i - 1).durable.outcomes[id] == Rejected {
      k := RejectedAlone(b, target, log, i - 1, id);
    } else {
      k := CheckProvenance(b, target, log, i - 1);
    }
  }

  lemma {:induction false} CheckProvenance(b: Batch, target: Commit, log: seq<Event>, i: nat) returns (k: nat)
    requires Legal(b, target, log) && i <= |log| && At(b, target, log, i).check.Some?
    ensures k < i
    ensures log[k] == Verified(At(b, target, log, i).check.value.ids, At(b, target, log, i).check.value.candidate)
  {
    assert i > 0;
    AtStep(b, target, log, i - 1);
    ApplyCheck(b, At(b, target, log, i - 1), log[i - 1]);
    if At(b, target, log, i - 1).check == At(b, target, log, i).check {
      k := CheckProvenance(b, target, log, i - 1);
    } else {
      k := i - 1;
    }
  }

  /** A submission blocked over a prerequisite: that prerequisite is rejected or blocked, for good. */
  lemma ExcludedForever(b: Batch, target: Commit, log: seq<Event>, i: nat, j: nat)
    requires Legal(b, target, log) && i < j <= |log| && log[i].BlockExcluded?
    ensures log[i].prerequisite in At(b, target, log, j).durable.outcomes
    ensures Excluded(At(b, target, log, j).durable.outcomes[log[i].prerequisite])
  {
    AtStep(b, target, log, i);
    SettledForever(b, target, log, i, j, log[i].prerequisite);
  }

  /** Each composition directory is used once: the attempt number of a check is larger than any before. */
  lemma {:induction false} DirectoriesDistinct(b: Batch, target: Commit, log: seq<Event>, i: nat, j: nat)
    requires Legal(b, target, log) && i < j <= |log| && log[i].Verified?
    ensures At(b, target, log, i).durable.attempts <= At(b, target, log, j).durable.attempts
    ensures At(b, target, log, j).directory ==>
              At(b, target, log, i).durable.attempts < At(b, target, log, j).durable.attempts
    decreases j
  {
    AtStep(b, target, log, j - 1);
    ApplyCheck(b, At(b, target, log, j - 1), log[j - 1]);
    if i + 1 < j {
      DirectoriesDistinct(b, target, log, i, j - 1);
    }
  }

  ghost function Checks(log: seq<Event>): nat {
    if log == [] then 0 else Checks(log[..|log| - 1]) + (if log[|log| - 1].Verified? then 1 else 0)
  }

  /** Over the whole life of a batch, restarts included, at most `maxSplitAttempts` stacks are checked. */
  lemma {:induction false} ChecksWithinBudget(b: Batch, target: Commit, log: seq<Event>)
    requires Legal(b, target, log)
    ensures Checks(log) == Exec(b, target, log).value.verifies <= b.policy.maxSplitAttempts
  {
    if log != [] {
      LegalPrefix(b, target, log, |log| - 1);
      ChecksWithinBudget(b, target, log[..|log| - 1]);
      ApplyCheck(b, Exec(b, target, log[..|log| - 1]).value, log[|log| - 1]);
    }
    RunKeeps(b, target, log, |log|);
    assert log[..|log|] == log;
  }
}
