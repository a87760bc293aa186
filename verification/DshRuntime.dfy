/** Checkpointed handoffs: a durable intent names the replacement before its predecessor stops, so a restart
    can only finish what was authorized. */
module DshRuntimes {
  import opened Wrappers
  import opened Identities
  import opened Assignments
  import opened AssignmentStores
  import Lineage

  /** The replacement at `k` is the one that its stopped predecessor at `i` named. */
  predicate Replaces(records: seq<Attempt>, i: nat, k: nat)
    requires i < |records| && k < |records|
  {
    var p, r := records[i], records[k];
    && r.handoff.Some? && p.handoffIntent.Some?
    && r.work == p.work && r.generation == p.generation + 1 && r.handoff.value.previousAttemptId == p.attemptId
    && r.handoff.value.intentId == p.handoffIntent.value.id && r.handoff.value.round == p.handoffIntent.value.round
    && r.workerId == p.handoffIntent.value.workerId && r.runtimeId == p.handoffIntent.value.runtimeId
    && p.phase == Terminal && p.stopEvidence.Some? && p.stopEvidence.value.kind == Stopped
  }

  ghost predicate ReplacesOne(records: seq<Attempt>, k: nat)
    requires k < |records|
  {
    exists i :: 0 <= i < |records| && Replaces(records, i, k)
  }

  ghost predicate Chained(records: seq<Attempt>) {
    forall k :: 0 <= k < |records| && records[k].handoff.Some? ==> ReplacesOne(records, k)
  }

  lemma ReserveChains(j: Journal, request: Request)
    requires Inv(j) && Chained(j.records) && Reserving(j, request).Some?
    ensures Chained(j.records + [Reserving(j, request).value])
  {
    var r := Reserving(j, request).value;
    var after := j.records + [r];
    forall k | 0 <= k < |after| && after[k].handoff.Some? ensures ReplacesOne(after, k) {
      if k < |j.records| {
        var i :| 0 <= i < |j.records| && Replaces(j.records, i, k);
        assert Replaces(after, i, k);
      } else {
        var i := Latest(j.records, request.work).value;
        assert Replaces(after, i, k);
      }
    }
  }

  lemma MutateChains(j: Journal, token: Token, change: Change)
    requires Inv(j) && Chained(j.records) && Reduce(j, Mutate(token, change)).Some?
    ensures Chained(Reduce(j, Mutate(token, change)).value)
  {
    MutationShape(j, token, change);
    var after := Reduce(j, Mutate(token, change)).value;
    forall k | 0 <= k < |after| && after[k].handoff.Some? ensures ReplacesOne(after, k) {
      var i :| 0 <= i < |j.records| && Replaces(j.records, i, k);
      assert Replaces(after, i, k);
    }
  }

  lemma {:induction false} ReplayChained(log: seq<Event>)
    requires Replay(log).Some?
    ensures Chained(Replay(log).value.records)
  {
    if log != [] {
      var before := log[..|log| - 1];
      ReplayChained(before);
      ReplayKeeps(before);
      match log[|log| - 1] {
        case Reserve(request) => ReserveChains(Replay(before).value, request);
        case Mutate(token, change) => MutateChains(Replay(before).value, token, change);
      }
    }
  }

  predicate HandsOver(r: Attempt, attemptId: nat, intentId: nat) {
    r.handoff.Some? && r.handoff.value.previousAttemptId == attemptId && r.handoff.value.intentId == intentId
  }

  function Replacement(records: seq<Attempt>, attemptId: nat, intentId: nat): (r: Option<Attempt>)
    ensures r.Some? ==> r.value in records && HandsOver(r.value, attemptId, intentId)
  {
    if records == [] then None
    else if HandsOver(records[0], attemptId, intentId) then Some(records[0])
    else Replacement(records[1..], attemptId, intentId)
  }

  /** The attempts that replaced a given one by a handoff. */
  function HandedFrom(records: seq<Attempt>, attemptId: nat): set<Attempt> {
    set r | r in records && r.handoff.Some? && r.handoff.value.previousAttemptId == attemptId
  }

  /** An authorized handoff is consumed before its task goes on: only the named replacement can follow. */
  ghost predicate Consumed(records: seq<Attempt>) {
    forall i, k :: 0 <= i < k < |records| && records[i].work == records[k].work && records[i].handoffIntent.Some? ==>
      Replacement(records, records[i].attemptId, records[i].handoffIntent.value.id).Some?
  }

  lemma {:induction false} ReplacementFound(records: seq<Attempt>, k: nat, attemptId: nat, intentId: nat)
    requires k < |records| && HandsOver(records[k], attemptId, intentId)
    ensures Replacement(records, attemptId, intentId).Some?
  {
    if !HandsOver(records[0], attemptId, intentId) {
      ReplacementFound(records[1..], k - 1, attemptId, intentId);
    }
  }

  /** Attempts that keep their handoff keep the replacement that was found. */
  lemma ReplacementStays(before: seq<Attempt>, after: seq<Attempt>, attemptId: nat, intentId: nat)
    requires Replacement(before, attemptId, intentId).Some? && |before| <= |after|
    requires forall k :: 0 <= k < |before| ==> after[k].handoff == before[k].handoff
    ensures Replacement(after, attemptId, intentId).Some?
  {
    var k :| 0 <= k < |before| && before[k] == Replacement(before, attemptId, intentId).value;
    ReplacementFound(after, k, attemptId, intentId);
  }

  /** The reservation behind an attempt that holds an intent is the replacement it names. */
  lemma ReserveHandsOver(j: Journal, request: Request)
    requires Reserving(j, request).Some?
    ensures var p := Latest(j.records, request.work);
            p.Some? && j.records[p.value].handoffIntent.Some? ==>
              HandsOver(Reserving(j, request).value, j.records[p.value].attemptId,
                        j.records[p.value].handoffIntent.value.id)
  {
  }

  lemma AppendConsumes(records: seq<Attempt>, r: Attempt)
    requires Consumed(records)
    requires var p := Latest(records, r.work);
             p.Some? && records[p.value].handoffIntent.Some? ==>
               HandsOver(r, records[p.value].attemptId, records[p.value].handoffIntent.value.id)
    ensures Consumed(records + [r])
  {
    var after := records + [r];
    forall i, k | 0 <= i < k < |after| && after[i].work == after[k].work && after[i].handoffIntent.Some?
      ensures Replacement(after, after[i].attemptId, after[i].handoffIntent.value.id).Some?
    {
      var p := Latest(records, r.work);
      if k == |records| && p == Some(i) {
        ReplacementFound(after, k, after[i].attemptId, after[i].handoffIntent.value.id);
      } else {
        assert k < |records| || i < p.value;
        ReplacementStays(records, after, after[i].attemptId, after[i].handoffIntent.value.id);
      }
    }
  }

  lemma MutateConsumes(j: Journal, token: Token, change: Change)
    requires Inv(j) && Consumed(j.records) && Reduce(j, Mutate(token, change)).Some?
    ensures Consumed(Reduce(j, Mutate(token, change)).value)
  {
    MutationShape(j, token, change);
    var after := Reduce(j, Mutate(token, change)).value;
    forall i, k | 0 <= i < k < |after| && after[i].work == after[k].work && after[i].handoffIntent.Some?
      ensures Replacement(after, after[i].attemptId, after[i].handoffIntent.value.id).Some?
    {
      ReplacementStays(j.records, after, after[i].attemptId, after[i].handoffIntent.value.id);
    }
  }

  lemma {:induction false} ReplayConsumed(log: seq<Event>)
    requires Replay(log).Some?
    ensures Consumed(Replay(log).value.records)
  {
    if log != [] {
      var before := log[..|log| - 1];
      ReplayConsumed(before);
      ReplayKeeps(before);
      match log[|log| - 1] {
        case Reserve(request) =>
          ReserveHandsOver(Replay(before).value, request);
          AppendConsumes(Replay(before).value.records, Reserving(Replay(before).value, request).value);
        case Mutate(token, change) => MutateConsumes(Replay(before).value, token, change);
      }
    }
  }

  /** Generations of one task are all different. */
  lemma GenerationsDiffer(j: Journal, i: nat, k: nat)
    requires Inv(j) && i < k < |j.records| && j.records[i].work == j.records[k].work
    ensures j.records[i].generation < j.records[k].generation
  {
    CountStep(j.records, i, j.records[i].work, Any);
    CountGrows(j.records, i + 1, k, j.records[i].work);
  }

  lemma {:induction false} CountGrows(records: seq<Attempt>, i: nat, k: nat, work: Work)
    requires i <= k <= |records|
    ensures Count(records[..i], work, Any) <= Count(records[..k], work, Any)
    decreases k
  {
    if i < k {
      CountGrows(records, i, k - 1, work);
      CountStep(records, k - 1, work, Any);
    }
  }

  /** However often a handoff is resumed, its predecessor gets one replacement. */
  lemma OneReplacement(log: seq<Event>, k: nat, m: nat)
    requires Replay(log).Some? && k < |Replay(log).value.records| && m < |Replay(log).value.records|
    requires var records := Replay(log).value.records;
             records[k].handoff.Some? && records[m].handoff.Some?
             && records[k].handoff.value.previousAttemptId == records[m].handoff.value.previousAttemptId
    ensures k == m
  {
    var j := Replay(log).value;
    ReplayKeeps(log);
    ReplayChained(log);
    var i :| 0 <= i < |j.records| && Replaces(j.records, i, k);
    var l :| 0 <= l < |j.records| && Replaces(j.records, l, m);
    SameAttempt(j, i, l);
    if k < m {
      GenerationsDiffer(j, k, m);
    } else if m < k {
      GenerationsDiffer(j, m, k);
    }
  }

  lemma OnlyReplacement(log: seq<Event>, r: Attempt)
    requires Replay(log).Some? && r in Replay(log).value.records && r.handoff.Some?
    ensures HandedFrom(Replay(log).value.records, r.handoff.value.previousAttemptId) == {r}
  {
    var records := Replay(log).value.records;
    var k :| 0 <= k < |records| && records[k] == r;
    forall other | other in HandedFrom(records, r.handoff.value.previousAttemptId)
      ensures other == r
    {
      var m :| 0 <= m < |records| && records[m] == other;
      OneReplacement(log, k, m);
    }
  }

  /** What a new intent needs: fresh identities, and the checkpoint read from the predecessor's worktree. */
  datatype Draw = Draw(intentId: nat, workerId: nat, runtimeId: nat, checkpoint: Text)

  /** Where a call dies, if it does. */
  datatype Death = Never | AfterIntent | AfterStop

  predicate Names(r: Attempt, workerId: nat, runtimeId: nat) {
    && r.handoffIntent.Some?
    && r.handoffIntent.value.workerId == workerId && r.handoffIntent.value.runtimeId == runtimeId
  }

  /** The record after a stop on a receipt: nothing but its ending is new. */
  predicate StoppedFrom(before: Attempt, after: Attempt) {
    && after.stopEvidence.Some? && after.stopEvidence.value.kind == Stopped
    && after == before.(phase := Terminal, stopReason := after.stopReason, stopEvidence := after.stopEvidence,
                        revision := after.revision)
  }

  // ----- When a handoff can be finished -----

  /** A new intent is accepted for an active attempt within its handoff limit. */
  predicate MayIntend(records: seq<Attempt>, r: Attempt) {
    r.phase == Active && r.provider != External && Count(records, r.work, Handed) < r.handoffLimit
  }

  /** Nobody else alive is the named worker, and the named runtime is new. */
  ghost predicate Free(records: seq<Attempt>, attemptId: nat, workerId: nat, runtimeId: nat) {
    forall other :: other in records ==>
      && other.runtimeId != runtimeId
      && (other.phase != Terminal && other.attemptId != attemptId ==> other.workerId != workerId)
  }

  /** Room for a replacement once its predecessor has given back its own slot. */
  predicate HasRoom(limits: Limits, records: seq<Attempt>, r: Attempt) {
    var held := if r.phase == Terminal then 0 else 1;
    && r.work.projectId in limits.projectCapacities
    && Live(records) < limits.globalCapacity + held
    && LiveIn(records, r.work.projectId) < limits.projectCapacities[r.work.projectId] + held
  }

  /** An ending that a handoff may follow: stopped on a receipt, not a failed provision, within its repairs. */
  predicate Resumes(r: Attempt) {
    && r.stopEvidence.Some? && r.stopEvidence.value.kind == Stopped && r.provisioning.None?
    && (r.interruption.Some? ==> r.interruption.value.count < Limit(r.repairLimit))
  }

  /** All that finishing a handoff of `r` asks for, apart from a drained runtime. */
  ghost predicate Resumable(records: seq<Attempt>, limits: Limits, r: Attempt, draw: Option<Draw>) {
    && r.provider != External && HasRoom(limits, records, r)
    && (r.phase == Terminal ==> Resumes(r))
    && (if r.handoffIntent.Some?
        then Free(records, r.attemptId, r.handoffIntent.value.workerId, r.handoffIntent.value.runtimeId)
        else MayIntend(records, r) && draw.Some?
             && Free(records, r.attemptId, draw.value.workerId, draw.value.runtimeId))
  }

  ghost predicate MayResume(records: seq<Attempt>, limits: Limits, token: Token, draw: Option<Draw>) {
    var i := Find(records, token.attemptId);
    i < |records| && TokenOf(records[i]) == token && Resumable(records, limits, records[i], draw)
  }

  /** The attempt of the token has its replacement already. */
  predicate AlreadyReplaced(records: seq<Attempt>, token: Token) {
    var i := Find(records, token.attemptId);
    && i < |records| && TokenOf(records[i]) == token && records[i].provider != External
    && HandedFrom(records, token.attemptId) != {}
  }

  /** A replacement names the intent that its predecessor holds, so a later call finds it. */
  lemma ReplacedFound(log: seq<Event>, i: nat)
    requires Replay(log).Some? && i < |Replay(log).value.records|
    ensures var r := Replay(log).value.records[i];
            HandedFrom(Replay(log).value.records, r.attemptId) != {} ==>
              r.handoffIntent.Some?
              && Replacement(Replay(log).value.records, r.attemptId, r.handoffIntent.value.id).Some?
  {
    var j := Replay(log).value;
    ReplayKeeps(log);
    ReplayChained(log);
    if HandedFrom(j.records, j.records[i].attemptId) != {} {
      var other :| other in HandedFrom(j.records, j.records[i].attemptId);
      var k :| 0 <= k < |j.records| && j.records[k] == other;
      var p :| 0 <= p < |j.records| && Replaces(j.records, p, k);
      SameAttempt(j, p, i);
      ReplacementFound(j.records, k, j.records[i].attemptId, j.records[i].handoffIntent.value.id);
    }
  }

  /** The request that the intent names meets every rule about its predecessor. */
  lemma HandoffFits(r: Attempt)
    requires r.phase == Terminal && r.provider != External && Resumes(r)
    requires r.handoffIntent.Some? && r.handoffIntent.value.round <= r.handoffLimit
    ensures Lineage.ResumeHandoff(r).Some?
    ensures var request := Lineage.ResumeHandoff(r).value;
      && request.work == r.work && request.expectedGeneration == r.generation
      && request.handoffLimit == Some(r.handoffLimit) && request.retryPolicy == Some(r.retryPolicy)
      && request.workerId == r.handoffIntent.value.workerId && request.runtimeId == r.handoffIntent.value.runtimeId
      && BudgetAllowed(r, request, r.handoffLimit, r.retryPolicy)
      && RepairAllowed(Some(r), request) && HandoffAllowed(Some(r), request, r.handoffLimit)
  {
  }

  lemma OthersFree(j: Journal, i: nat, workerId: nat, runtimeId: nat)
    requires Inv(j) && i < |j.records| && j.records[i].phase == Terminal
    requires Free(j.records, j.records[i].attemptId, workerId, runtimeId)
    ensures forall other :: other in j.records ==>
              other.runtimeId != runtimeId && (other.phase != Terminal ==> other.workerId != workerId)
  {
    forall other | other in j.records && other.phase != Terminal
      ensures other.workerId != workerId
    {
      var k :| 0 <= k < |j.records| && j.records[k] == other;
      assert k != i && other.attemptId != j.records[i].attemptId;
    }
  }

  /** The reducer accepts the named replacement of its task's latest attempt. */
  lemma HandoffReserves(j: Journal, i: nat, limits: Limits)
    requires Inv(j) && i < |j.records|
    requires forall k :: i < k < |j.records| ==> j.records[k].work != j.records[i].work
    requires j.records[i].phase == Terminal && Resumable(j.records, limits, j.records[i], None)
    requires j.records[i].handoffIntent.Some?
    requires j.records[i].handoffIntent.value.round <= j.records[i].handoffLimit
    ensures var request := Lineage.ResumeHandoff(j.records[i]);
            request.Some? && request.value.work == j.records[i].work && Reserving(j, request.value).Some?
  {
    var r := j.records[i];
    HandoffFits(r);
    OthersFree(j, i, r.handoffIntent.value.workerId, r.handoffIntent.value.runtimeId);
    LatestAt(j.records, i);
  }

  lemma LatestAt(records: seq<Attempt>, i: nat)
    requires i < |records| && forall k :: i < k < |records| ==> records[k].work != records[i].work
    ensures Latest(records, records[i].work) == Some(i)
  {
  }

  /** The records once the attempt at `i` is retired, which it may have been before. */
  predicate RetiredAt(before: seq<Attempt>, after: seq<Attempt>, i: nat)
    requires i < |before|
  {
    && |after| == |before| && after == before[i := after[i]] && after[i].phase == Terminal
    && (after[i] == before[i] || (before[i].phase != Terminal && StoppedFrom(before[i], after[i])))
  }

  /** Retiring the predecessor makes the room, and leaves the named identities free. */
  lemma RetiredResumable(before: seq<Attempt>, after: seq<Attempt>, i: nat, limits: Limits)
    requires i < |before| && Resumable(before, limits, before[i], None)
    requires before[i].handoffIntent.Some? && RetiredAt(before, after, i)
    requires before[i].phase != Terminal ==> before[i].provisioning.None? && before[i].interruption.None?
    ensures HasCapacity(limits, after, before[i].work.projectId) && Resumable(after, limits, after[i], None)
  {
    if before[i].phase != Terminal {
      LiveReplaced(before, i, after[i], before[i].work.projectId);
    } else {
      assert after == before;
    }
    forall other | other in after
      ensures other.runtimeId != before[i].handoffIntent.value.runtimeId
      ensures other.phase != Terminal && other.attemptId != before[i].attemptId ==>
                other.workerId != before[i].handoffIntent.value.workerId
    {
      var k :| 0 <= k < |after| && after[k] == other;
      assert before[k] in before;
    }
  }

  /** Recording the intent leaves what the handoff asks for as it was. */
  lemma IntendedResumable(before: seq<Attempt>, after: seq<Attempt>, i: nat, limits: Limits, draw: Option<Draw>)
    requires i < |before| && Resumable(before, limits, before[i], draw)
    requires |after| == |before| && after == before[i := after[i]]
    requires after[i] == before[i].(handoffIntent := after[i].handoffIntent, revision := after[i].revision)
    requires if before[i].handoffIntent.Some? then after[i] == before[i]
             else Names(after[i], draw.value.workerId, draw.value.runtimeId)
    ensures Resumable(after, limits, after[i], None)
  {
    if before[i].handoffIntent.Some? {
      assert after == before;
    } else {
      LiveReplaced(before, i, after[i], before[i].work.projectId);
      forall other | other in after
        ensures other.runtimeId != draw.value.runtimeId
        ensures other.phase != Terminal && other.attemptId != before[i].attemptId ==>
                  other.workerId != draw.value.workerId
      {
        var k :| 0 <= k < |after| && after[k] == other;
        assert before[k] in before;
      }
    }
  }

  /** Without a replacement, an attempt that holds an intent is its task's latest, and within its limit. */
  lemma IntentHolds(j: Journal, i: nat)
    requires Inv(j) && Consumed(j.records) && i < |j.records| && j.records[i].handoffIntent.Some?
    requires Replacement(j.records, j.records[i].attemptId, j.records[i].handoffIntent.value.id).None?
    ensures forall k :: i < k < |j.records| ==> j.records[k].work != j.records[i].work
    ensures j.records[i].handoffIntent.value.round <= j.records[i].handoffLimit
    ensures j.records[i].phase != Terminal ==> j.records[i].provisioning.None? && j.records[i].interruption.None?
  {
    assert Numbered(j.records, i);
  }

  lemma RetiredLatest(before: Journal, after: seq<Attempt>, i: nat)
    requires Inv(before) && Consumed(before.records) && i < |before.records|
    requires before.records[i].handoffIntent.Some? && RetiredAt(before.records, after, i)
    requires var r := before.records[i]; Replacement(before.records, r.attemptId, r.handoffIntent.value.id).None?
    ensures forall k :: i < k < |after| ==> after[k].work != after[i].work
    ensures after[i].handoffIntent == before.records[i].handoffIntent
    ensures after[i].handoffIntent.value.round <= after[i].handoffLimit
    ensures before.records[i].phase != Terminal ==>
              before.records[i].provisioning.None? && before.records[i].interruption.None?
  {
    IntentHolds(before, i);
  }

  /** Once its predecessor is retired, the replacement is reserved. */
  lemma Replaceable(before: Journal, after: Journal, i: nat, limits: Limits)
    requires Inv(before) && Inv(after) && Consumed(before.records) && i < |before.records|
    requires before.records[i].handoffIntent.Some? && Resumable(before.records, limits, before.records[i], None)
    requires var r := before.records[i]; Replacement(before.records, r.attemptId, r.handoffIntent.value.id).None?
    requires RetiredAt(before.records, after.records, i)
    ensures var request := Lineage.ResumeHandoff(after.records[i]);
            && request.Some? && HasCapacity(limits, after.records, request.value.work.projectId)
            && Reserving(after, request.value).Some?
  {
    RetiredLatest(before, after.records, i);
    RetiredResumable(before.records, after.records, i, limits);
    HandoffReserves(after, i, limits);
  }

  lemma StoppingNext(records: seq<Attempt>, r: Attempt, reason: Text)
    requires r.phase == Active
    ensures Changed(records, r, Change.Stopping(reason)).Some?
    ensures Next(records, r, Change.Stopping(reason))
         == r.(phase := Phase.Stopping, stopReason := Some(reason), revision := r.revision + 1)
  {
  }

  lemma RetiredNext(records: seq<Attempt>, r: Attempt, receipt: Text)
    ensures var change := Retired(StopEvidence(r.runtimeId, Stopped, receipt));
      Changed(records, r, change).Some? && StoppedFrom(r, Next(records, r, change))
      && Next(records, r, change).stopReason == r.stopReason
  {
  }

  class DshAssignmentRuntime {
    const assignments: AssignmentStore

    constructor (assignments: AssignmentStore)
      ensures this.assignments == assignments
    {
      this.assignments := assignments;
    }

    /** The record is what the journal holds at `i`. */
    ghost predicate Current(i: nat, record: Attempt)
      reads this, assignments
    {
      assignments.Valid() && i < |assignments.journal.records| && assignments.journal.records[i] == record
    }

    /** Change a live attempt, if its reducer allows it. */
    method Advance(ghost i: nat, record: Attempt, change: Change) returns (r: Option<Attempt>)
      requires Current(i, record) && record.phase != Terminal
      requires change.HandoffIntended? || change.Stopping? || change.Retired?
      modifies assignments
      ensures assignments.Valid() && assignments.limits == old(assignments.limits)
      ensures r.Some? <==> Changed(old(assignments.journal).records, record, change).Some?
      ensures r.Some? ==> Current(i, r.value) && r.value == Next(old(assignments.journal).records, record, change)
                          && assignments.journal.records == old(assignments.journal).records[i := r.value]
      ensures r.None? ==> assignments.journal == old(assignments.journal)
    {
      ReplayKeeps(assignments.log);
      if Changed(assignments.journal.records, record, change).Some? {
        LegalChange(assignments.journal, i, change);
      } else {
        IllegalChange(assignments.journal, i, change);
      }
      r := assignments.Mutate(TokenOf(record), change);
      if r.Some? {
        ReplayKeeps(assignments.log);
        Found(assignments.journal, i);
      }
    }

    /** Authorize the replacement, unless an earlier call did; without a worktree to point to there is none. */
    method Intend(ghost i: nat, record: Attempt, draw: Option<Draw>) returns (r: Option<Attempt>)
      requires Current(i, record) && record.provider != External
      modifies assignments
      ensures assignments.Valid() && assignments.limits == old(assignments.limits)
      ensures r.Some? <==> record.handoffIntent.Some?
                           || (MayIntend(old(assignments.journal).records, record) && draw.Some?)
      ensures r.None? ==> assignments.journal == old(assignments.journal)
      ensures record.handoffIntent.Some? ==> r == Some(record) && assignments.journal == old(assignments.journal)
      ensures record.handoffIntent.None? && r.Some? ==> Names(r.value, draw.value.workerId, draw.value.runtimeId)
      ensures r.Some? ==> && Current(i, r.value)
                          && r.value == record.(handoffIntent := r.value.handoffIntent, revision := r.value.revision)
                          && assignments.journal.records == old(assignments.journal).records[i := r.value]
    {
      if record.handoffIntent.Some? {
        return Some(record);
      }
      if record.phase != Active || draw.None? {
        return None;
      }
      var round := Count(assignments.journal.records, record.work, Handed) + 1;
      r := Advance(i, record, HandoffIntended(HandoffIntent(draw.value.intentId, round, draw.value.workerId,
                                                           draw.value.runtimeId, draw.value.checkpoint)));
    }

    method BeginStop(ghost i: nat, record: Attempt, reason: Text) returns (r: Attempt)
      requires Current(i, record) && record.phase == Active
      modifies assignments
      ensures Current(i, r) && assignments.limits == old(assignments.limits)
      ensures r == record.(phase := Phase.Stopping, stopReason := Some(reason), revision := record.revision + 1)
      ensures assignments.journal.records == old(assignments.journal).records[i := r]
    {
      StoppingNext(assignments.journal.records, record, reason);
      var changed := Advance(i, record, Change.Stopping(reason));
      r := changed.value;
    }

    method Retire(ghost i: nat, record: Attempt, receipt: Text) returns (r: Attempt)
      requires Current(i, record) && record.phase != Terminal
      modifies assignments
      ensures Current(i, r) && assignments.limits == old(assignments.limits)
      ensures StoppedFrom(record, r) && r.stopReason == record.stopReason
      ensures assignments.journal.records == old(assignments.journal).records[i := r]
    {
      RetiredNext(assignments.journal.records, record, receipt);
      var changed := Advance(i, record, Retired(StopEvidence(record.runtimeId, Stopped, receipt)));
      r := changed.value;
    }

    /** Stop and retire the predecessor; without a proof that its runtime is gone it stays alive. */
    method Stop(ghost i: nat, record: Attempt, drained: bool) returns (r: Option<Attempt>)
      requires Current(i, record)
      modifies assignments
      ensures assignments.Valid() && assignments.limits == old(assignments.limits)
      ensures record.phase == Terminal ==> r == Some(record) && assignments.journal == old(assignments.journal)
      ensures record.phase != Terminal ==> (r.Some? <==> drained)
      ensures r.None? ==> i < |assignments.journal.records| && assignments.journal.records[i].phase != Terminal
      ensures r.Some? ==> && Current(i, r.value) && r.value.phase == Terminal
                          && assignments.journal.records == old(assignments.journal).records[i := r.value]
      ensures record.phase != Terminal && r.Some? ==> StoppedFrom(record, r.value)
    {
      if record.phase == Terminal {
        return Some(record);
      }
      var stopping := record;
      if record.phase == Active {
        stopping := BeginStop(i, record, "Operator-authorized checkpointed handoff");
      }
      if !drained {
        return None;
      }
      var retired := Retire(i, stopping, "dsh/drained");
      r := Some(retired);
    }

    /** Retire the predecessor and reserve the replacement that its intent names. */
    method Replace(ghost i: nat, record: Attempt, drained: bool, death: Death) returns (r: Option<Attempt>)
      requires Current(i, record) && record.provider != External && record.handoffIntent.Some?
      requires Replacement(assignments.journal.records, record.attemptId, record.handoffIntent.value.id).None?
      modifies assignments
      ensures assignments.Valid() && assignments.limits == old(assignments.limits)
      ensures r.Some? ==> && r.value in assignments.journal.records
                          && HandsOver(r.value, record.attemptId, record.handoffIntent.value.id)
      ensures drained && death.Never? && Resumable(old(assignments.journal).records, assignments.limits, record, None)
              ==> r.Some?
    {
      ghost var before := assignments.journal;
      ReplayKeeps(assignments.log);
      ReplayConsumed(assignments.log);
      var stopped := Stop(i, record, drained);
      if stopped.None? || death.AfterStop? {
        return None;
      }
      if Resumable(before.records, assignments.limits, record, None) {
        ReplayKeeps(assignments.log);
        Replaceable(before, assignments.journal, i, assignments.limits);
      }
      var request := Lineage.ResumeHandoff(stopped.value);
      if request.None? {
        return None;
      }
      r := assignments.Reserve(request.value);
    }

    /** Go on from a durable intent. */
    method Finish(ghost i: nat, record: Attempt, drained: bool, death: Death) returns (r: Option<Attempt>)
      requires Current(i, record) && record.provider != External && record.handoffIntent.Some?
      modifies assignments
      ensures assignments.Valid() && assignments.limits == old(assignments.limits)
      ensures r.Some? ==> && r.value in assignments.journal.records
                          && HandsOver(r.value, record.attemptId, record.handoffIntent.value.id)
                          && HandedFrom(assignments.journal.records, record.attemptId) == {r.value}
      ensures drained && death.Never? && Resumable(old(assignments.journal).records, assignments.limits, record, None)
              ==> r.Some?
      ensures HandedFrom(old(assignments.journal).records, record.attemptId) != {}
              ==> r.Some? && assignments.journal == old(assignments.journal)
    {
      ReplacedFound(assignments.log, i);
      r := Replacement(assignments.journal.records, record.attemptId, record.handoffIntent.value.id);
      if r.None? {
        r := Replace(i, record, drained, death);
      }
      if r.Some? {
        OnlyReplacement(assignments.log, r.value);
      }
    }

    /** Intent, stop, retire, reserve. The call may die between any two records; calling it again goes on from
        what is durable, and returns the one replacement that was authorized. */
    method ResumeHandoff(token: Token, draw: Option<Draw>, drained: bool, death: Death) returns (r: Option<Attempt>)
      requires assignments.Valid()
      modifies assignments
      ensures assignments.Valid() && assignments.limits == old(assignments.limits)
      ensures r.Some? ==> && r.value in assignments.journal.records && r.value.handoff.Some?
                          && r.value.handoff.value.previousAttemptId == token.attemptId
                          && HandedFrom(assignments.journal.records, token.attemptId) == {r.value}
      ensures drained && death.Never? && MayResume(old(assignments.journal).records, assignments.limits, token, draw)
              ==> r.Some?
      ensures !death.AfterIntent? && AlreadyReplaced(old(assignments.journal).records, token)
              ==> r.Some? && assignments.journal == old(assignments.journal)
    {
      var i := Find(assignments.journal.records, token.attemptId);
      if i == |assignments.journal.records| || TokenOf(assignments.journal.records[i]) != token {
        return None;
      }
      var record := assignments.journal.records[i];
      if record.provider == External {
        return None;
      }
      ReplacedFound(assignments.log, i);
      ghost var before := assignments.journal.records;
      var intended := Intend(i, record, draw);
      if intended.None? || death.AfterIntent? {
        return None;
      }
      if Resumable(before, assignments.limits, record, draw) {
        IntendedResumable(before, assignments.journal.records, i, assignments.limits, draw);
      }
      r := Finish(i, intended.value, drained, death);
    }
  }
}
