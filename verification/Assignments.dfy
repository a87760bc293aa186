/** The assignment reducer: reservations and execution attempts of one task, replayed from a journal. */
module Assignments {
  import opened Wrappers
  import opened Identities
  import Keyed

  datatype Provider = Spawn | Fork | External
  datatype Phase = Reserved | Active | Stopping | Terminal
  datatype StopKind = Stopped | NeverStarted
  datatype StopEvidence = StopEvidence(runtimeId: nat, kind: StopKind, receipt: Text)
  datatype Repair = Repair(previousAttemptId: nat, submissionId: nat, sourceCommit: nat, diagnostic: Text, round: nat)
  datatype Handoff = Handoff(previousAttemptId: nat, intentId: nat, round: nat)
  datatype HandoffIntent = HandoffIntent(id: nat, round: nat, workerId: nat, runtimeId: nat, checkpoint: Text)
  datatype Delivery = Delivery(count: nat, observedSequence: nat, notBefore: nat, messageId: Text)
  datatype Interruption = Interruption(receipt: Text, count: nat)
  datatype Provisioning = Provisioning(count: nat, notBefore: nat, diagnostic: Text, retryable: bool)
  datatype Usage = Usage(attemptId: nat, generation: nat, tokens: nat)

  /** `timing` stands for the delays and multiplier, which never decide legality. */
  datatype RetryPolicy = RetryPolicy(maxAttempts: nat, timing: nat)

  const LEGACY_RETRY_POLICY := RetryPolicy(3, 0)

  datatype Request = Request(
    work: Work, workerId: nat, runtimeId: nat, provider: Provider,
    repairLimit: Option<nat>, handoffLimit: Option<nat>, handoff: Option<Handoff>, repair: Option<Repair>,
    expectedGeneration: nat, checkpoint: Text, retryPolicy: Option<RetryPolicy>)

  datatype Token = Token(attemptId: nat, generation: nat, expectedRevision: nat)

  datatype Attempt = Attempt(
    work: Work, workerId: nat, runtimeId: nat, provider: Provider,
    repairLimit: Option<nat>, handoffLimit: nat, handoff: Option<Handoff>, repair: Option<Repair>,
    checkpoint: Text, retryPolicy: RetryPolicy,
    attemptId: nat, generation: nat, revision: nat, phase: Phase,
    recovery: Option<Delivery>, healthRecovery: Option<Delivery>,
    result: Option<Text>, stopReason: Option<Text>, stopEvidence: Option<StopEvidence>,
    interruption: Option<Interruption>, externalUsage: Option<Usage>,
    provisioning: Option<Provisioning>, handoffIntent: Option<HandoffIntent>)

  datatype Change =
    | Recovery(observedSequence: nat, notBefore: nat, messageId: Text)
    | HealthRecovery(observedSequence: nat, notBefore: nat, messageId: Text)
    | RecoveryAttributed(recovery: Option<Delivery>, healthRecovery: Delivery)
    | Activated
    | Checkpoint(checkpoint: Text)
    | Reported(result: Text)
    | ExternalUsage(usage: Usage)
    | Stopping(reason: Text)
    | Retired(evidence: StopEvidence)
    | Interrupted(evidence: StopEvidence, receipt: Text)
    | HandoffIntended(handoff: HandoffIntent)
    | ProvisionFailed(evidence: StopEvidence, diagnostic: Text, notBefore: nat, retryable: bool)

  datatype Event = Reserve(request: Request) | Mutate(token: Token, change: Change)

  /** The replayed journal: its records, and the sequence number of its last event. */
  datatype Journal = Journal(records: seq<Attempt>, sequence: nat)

  // ----- Reading the records -----

  /** The index of a task's latest attempt, or `None`. */
  function Latest(records: seq<Attempt>, work: Work): (i: Option<nat>)
    ensures i.Some? ==> i.value < |records| && records[i.value].work == work
                        && forall k :: i.value < k < |records| ==> records[k].work != work
    ensures i.None? ==> forall k :: 0 <= k < |records| ==> records[k].work != work
  {
    if records == [] then None
    else if records[|records| - 1].work == work then Some(|records| - 1)
    else Latest(records[..|records| - 1], work)
  }

  datatype Mark = Any | Handed | Provisioned | Cut

  predicate Marked(r: Attempt, m: Mark) {
    match m
    case Any => true
    case Handed => r.handoff.Some?
    case Provisioned => r.provisioning.Some?
    case Cut => r.interruption.Some?
  }

  /** How many attempts of a task carry a mark. */
  function Count(records: seq<Attempt>, work: Work, m: Mark): nat {
    if records == [] then 0
    else var last := records[|records| - 1];
         Count(records[..|records| - 1], work, m) + (if last.work == work && Marked(last, m) then 1 else 0)
  }

  function IdOf(r: Attempt): nat {
    r.attemptId
  }

  function Find(records: seq<Attempt>, attemptId: nat): (i: nat)
    ensures i <= |records|
    ensures i < |records| ==> records[i].attemptId == attemptId
    ensures forall k :: 0 <= k < i ==> records[k].attemptId != attemptId
  {
    Keyed.Find(records, IdOf, attemptId)
  }

  function Round(r: Attempt): nat { if r.repair.Some? then r.repair.value.round else 0 }

  function Limit(limit: Option<nat>): nat { if limit.Some? then limit.value else 0 }

  // ----- Reservation -----

  predicate Carries(prior: Attempt, request: Request) {
    prior.repair.Some? && request.repair == prior.repair
  }

  /** A new repair continues the quiescent reported predecessor by exactly one round within the pinned limit. */
  predicate Repairs(prior: Attempt, request: Request)
    requires request.repair.Some?
  {
    && prior.stopEvidence.Some? && prior.stopEvidence.value.kind == Stopped
    && prior.stopReason.None? && prior.result.Some?
    && request.repair.value.previousAttemptId == prior.attemptId
    && request.repair.value.round == Round(prior) + 1
    && request.repair.value.round <= Limit(request.repairLimit)
  }

  predicate RepairAllowed(prior: Option<Attempt>, request: Request) {
    if request.handoff.Some? && prior.Some? && prior.value.repair.Some? then Carries(prior.value, request)
    else if prior.Some? && prior.value.provisioning.Some? && prior.value.repair.Some? then Carries(prior.value, request)
    else if request.repair.Some? then prior.Some? && Repairs(prior.value, request)
    else !(prior.Some? && prior.value.repair.Some?)
  }

  predicate HandoffAllowed(prior: Option<Attempt>, request: Request, handoffLimit: nat) {
    if request.handoff.Some? then
      && prior.Some? && prior.value.stopEvidence.Some? && prior.value.stopEvidence.value.kind == Stopped
      && prior.value.handoffIntent.Some?
      && prior.value.handoffIntent.value.id == request.handoff.value.intentId
      && prior.value.handoffIntent.value.round == request.handoff.value.round
      && request.handoff.value.previousAttemptId == prior.value.attemptId
      && request.handoff.value.round <= handoffLimit
      && request.workerId == prior.value.handoffIntent.value.workerId
      && request.runtimeId == prior.value.handoffIntent.value.runtimeId
      && request.checkpoint == prior.value.handoffIntent.value.checkpoint
    else !(prior.Some? && prior.value.handoffIntent.Some?)
  }

  /** Limits and policy are pinned by the first reservation; the budgets of the predecessor's ending are open. */
  predicate BudgetAllowed(prior: Attempt, request: Request, handoffLimit: nat, policy: RetryPolicy) {
    && request.repairLimit == prior.repairLimit
    && handoffLimit == prior.handoffLimit
    && policy == prior.retryPolicy
    && (prior.interruption.Some? ==> prior.interruption.value.count < Limit(request.repairLimit))
    && (prior.provisioning.Some? ==>
          prior.provisioning.value.retryable && prior.provisioning.value.count <= prior.retryPolicy.maxAttempts)
  }

  function Prior(records: seq<Attempt>, work: Work): Option<Attempt> {
    var i := Latest(records, work);
    if i.Some? then Some(records[i.value]) else None
  }

  function Reserving(j: Journal, request: Request): Option<Attempt> {
    var prior := Prior(j.records, request.work);
    var handoffLimit := if request.handoffLimit.Some? then request.handoffLimit.value
                        else if prior.Some? then prior.value.handoffLimit else 1;
    var policy := if request.retryPolicy.Some? then request.retryPolicy.value
                  else if prior.Some? then prior.value.retryPolicy else LEGACY_RETRY_POLICY;
    if (if prior.Some? then prior.value.generation else 0) != request.expectedGeneration then None
    else if prior.Some? && prior.value.phase != Terminal then None
    else if prior.Some? && !BudgetAllowed(prior.value, request, handoffLimit, policy) then None
    else if !RepairAllowed(prior, request) || !HandoffAllowed(prior, request, handoffLimit) then None
    else if exists r :: r in j.records && r.phase != Terminal && r.workerId == request.workerId then None
    else if exists r :: r in j.records && r.runtimeId == request.runtimeId then None
    else Some(Attempt(request.work, request.workerId, request.runtimeId, request.provider,
                      request.repairLimit, handoffLimit, request.handoff, request.repair,
                      request.checkpoint, policy,
                      j.sequence + 1, request.expectedGeneration + 1, 1, Reserved,
                      None, None, None, None, None, None, None, None, None))
  }

  // ----- Mutation -----

  predicate Replays(current: Attempt, change: Change) {
    match change
    case Recovery(_, _, messageId) => current.recovery.Some? && current.recovery.value.messageId == messageId
    case HealthRecovery(_, _, messageId) => current.healthRecovery.Some?
                                            && current.healthRecovery.value.messageId == messageId
    case _ => false
  }

  function Deliveries(d: Option<Delivery>): nat { if d.Some? then d.value.count else 0 }

  /** The next snapshot of a live attempt, or `None` when the change is illegal. The revision is added by the caller. */
  function Changed(records: seq<Attempt>, current: Attempt, change: Change): Option<Attempt> {
    match change
    case ExternalUsage(usage) =>
      if current.provider != External || usage.attemptId != current.attemptId || usage.generation != current.generation
         || current.phase == Phase.Stopping || current.externalUsage.Some?
      then None else Some(current.(externalUsage := Some(usage)))
    case Recovery(observed, notBefore, messageId) =>
      if current.phase != Active || Deliveries(current.recovery) >= current.retryPolicy.maxAttempts then None
      else Some(current.(recovery := Some(Delivery(Deliveries(current.recovery) + 1, observed, notBefore, messageId))))
    case HealthRecovery(observed, notBefore, messageId) =>
      if current.phase != Active then None
      else Some(current.(healthRecovery := Some(Delivery(Deliveries(current.healthRecovery) + 1, observed, notBefore,
                                                         messageId))))
    case RecoveryAttributed(recovery, healthRecovery) =>
      if current.phase != Active then None
      else Some(current.(recovery := recovery, healthRecovery := Some(healthRecovery)))
    case Activated =>
      if current.phase != Reserved then None else Some(current.(phase := Active))
    case Checkpoint(checkpoint) =>
      if current.phase != Active then None else Some(current.(checkpoint := checkpoint))
    case Reported(result) =>
      if current.phase != Active then None else Some(current.(result := Some(result)))
    case Stopping(reason) =>
      if current.phase == Phase.Stopping then None
      else Some(current.(phase := Phase.Stopping, stopReason := Some(reason)))
    case Retired(evidence) =>
      if !StopsThis(current, evidence) then None
      else Some(current.(phase := Terminal, stopEvidence := Some(evidence)))
    case Interrupted(evidence, receipt) =>
      if !StopsThis(current, evidence) then None
      else Some(current.(phase := Terminal, stopEvidence := Some(evidence),
                         interruption := Some(Interruption(receipt, Count(records, current.work, Cut) + 1))))
    case HandoffIntended(intent) =>
      if current.phase != Active || current.provider == External || current.handoffIntent.Some?
         || intent.round != Count(records, current.work, Handed) + 1 || intent.round > current.handoffLimit
      then None else Some(current.(handoffIntent := Some(intent)))
    case ProvisionFailed(evidence, diagnostic, notBefore, retryable) =>
      if evidence.runtimeId != current.runtimeId || (current.phase != Reserved && current.phase != Active)
         || (current.phase == Active && (current.provider != External || evidence.kind != Stopped))
      then None
      else Some(current.(phase := Terminal, stopEvidence := Some(evidence), stopReason := Some(diagnostic),
                         provisioning := Some(Provisioning(Count(records, current.work, Provisioned) + 1,
                                                           notBefore, diagnostic, retryable))))
  }

  predicate StopsThis(current: Attempt, evidence: StopEvidence) {
    evidence.runtimeId == current.runtimeId && (evidence.kind == NeverStarted ==> current.phase == Reserved)
  }

  /** Replay one event: `None` when it is refused, the same records when it is an exact replay. */
  function Reduce(j: Journal, e: Event): Option<seq<Attempt>> {
    match e
    case Reserve(request) =>
      (match Reserving(j, request)
       case None => None
       case Some(r) => Some(j.records + [r]))
    case Mutate(token, change) =>
      var i := Find(j.records, token.attemptId);
      if i == |j.records| || j.records[i].generation != token.generation then None
      else if j.records[i].phase == Terminal then
        if change.ExternalUsage? && j.records[i].provider == External
           && j.records[i].externalUsage == Some(change.usage)
        then Some(j.records) else None
      else if j.records[i].revision != token.expectedRevision then None
      else if Replays(j.records[i], change) then Some(j.records)
      else if change.ExternalUsage? && j.records[i].provider == External && j.records[i].phase != Phase.Stopping
              && j.records[i].externalUsage == Some(change.usage) then Some(j.records)
      else match Changed(j.records, j.records[i], change)
           case None => None
           case Some(next) => Some(j.records[i := next.(revision := j.records[i].revision + 1)])
  }

  function Apply(j: Journal, e: Event): Option<Journal> {
    match Reduce(j, e)
    case None => None
    case Some(records) => Some(Journal(records, j.sequence + 1))
  }

  function Replay(log: seq<Event>): Option<Journal> {
    if log == [] then Some(Journal([], 0))
    else match Replay(log[..|log| - 1])
         case None => None
         case Some(j) => Apply(j, log[|log| - 1])
  }

  // ----- Ownership: what every reachable journal keeps -----

  /** Generations of a task are 1..k in order, all but the last terminal, under one set of limits. */
  ghost predicate Owned(records: seq<Attempt>) {
    && (forall j :: 0 <= j < |records| ==> records[j].generation == Count(records[..j], records[j].work, Any) + 1)
    && (forall i, j :: 0 <= i < j < |records| && records[i].work == records[j].work ==>
          records[i].phase == Terminal && SameLimits(records[i], records[j]))
  }

  predicate SameLimits(a: Attempt, b: Attempt) {
    a.repairLimit == b.repairLimit && a.handoffLimit == b.handoffLimit && a.retryPolicy == b.retryPolicy
  }

  /** No runtime or attempt identity repeats, and no worker holds two live attempts. */
  ghost predicate Distinct(j: Journal) {
    && (forall i :: 0 <= i < |j.records| ==> j.records[i].attemptId <= j.sequence)
    && (forall i, k :: 0 <= i < k < |j.records| ==>
          j.records[i].runtimeId != j.records[k].runtimeId && j.records[i].attemptId != j.records[k].attemptId)
    && (forall i, k :: 0 <= i < k < |j.records| && j.records[i].phase != Terminal && j.records[k].phase != Terminal ==>
          j.records[i].workerId != j.records[k].workerId)
  }

  /** The endings that the budgets count are numbered in order along a task. */
  ghost predicate Numbered(records: seq<Attempt>, j: nat)
    requires j < |records|
  {
    NumberedAs(records[j], Count(records[..j], records[j].work, Provisioned),
               Count(records[..j], records[j].work, Cut), Count(records[..j + 1], records[j].work, Handed))
  }

  predicate NumberedAs(r: Attempt, provisioned: nat, cut: nat, handed: nat) {
    && (r.phase != Terminal ==> r.provisioning.None? && r.interruption.None?)
    && (r.provisioning.Some? ==> r.provisioning.value.count == provisioned + 1)
    && (r.interruption.Some? ==> r.interruption.value.count == cut + 1)
    && (r.handoffIntent.Some? ==> r.handoffIntent.value.round == handed + 1 <= r.handoffLimit)
  }

  ghost predicate Inv(j: Journal) {
    && Owned(j.records) && Distinct(j)
    && forall i :: 0 <= i < |j.records| ==> Numbered(j.records, i)
  }

  // ----- Counting -----

  lemma {:induction false} CountReplaced(records: seq<Attempt>, i: nat, next: Attempt, work: Work, m: Mark)
    requires i < |records| && next.work == records[i].work
    requires records[i].work != work || Marked(next, m) == Marked(records[i], m)
    ensures Count(records[i := next], work, m) == Count(records, work, m)
  {
    var n := |records| - 1;
    if i < n {
      CountReplaced(records[..n], i, next, work, m);
      assert records[i := next][..n] == records[..n][i := next];
    } else {
      assert records[i := next][..n] == records[..n];
    }
  }

  lemma {:induction false} CountAfter(records: seq<Attempt>, i: nat, work: Work, m: Mark)
    requires i <= |records| && forall k :: i <= k < |records| ==> records[k].work != work
    ensures Count(records, work, m) == Count(records[..i], work, m)
  {
    if i < |records| {
      var n := |records| - 1;
      CountAfter(records[..n], i, work, m);
      assert records[..n][..i] == records[..i];
    } else {
      assert records[..i] == records;
    }
  }

  lemma CountStep(records: seq<Attempt>, i: nat, work: Work, m: Mark)
    requires i < |records|
    ensures Count(records[..i + 1], work, m)
         == Count(records[..i], work, m) + (if records[i].work == work && Marked(records[i], m) then 1 else 0)
  {
    assert records[..i + 1][..i] == records[..i];
  }

  /** Appending changes no count over an earlier prefix, and replacing only the counts of its own task. */
  lemma PrefixAppended(records: seq<Attempt>, r: Attempt, j: nat)
    requires j <= |records|
    ensures (records + [r])[..j] == records[..j]
  {
  }

  lemma PrefixReplaced(records: seq<Attempt>, i: nat, next: Attempt, j: nat, work: Work, m: Mark)
    requires i < |records| && j <= |records| && next.work == records[i].work && (i < j ==> records[i].work != work)
    ensures Count(records[i := next][..j], work, m) == Count(records[..j], work, m)
  {
    if i < j {
      assert records[i := next][..j] == records[..j][i := next];
      CountReplaced(records[..j], i, next, work, m);
    } else {
      assert records[i := next][..j] == records[..j];
    }
  }

  // ----- Steps -----

  /** What a mutation of a live attempt can change. */
  ghost predicate Advances(records: seq<Attempt>, i: nat, next: Attempt)
    requires i < |records|
  {
    var r := records[i];
    && r.phase != Terminal
    && next.work == r.work && next.workerId == r.workerId && next.runtimeId == r.runtimeId
    && next.attemptId == r.attemptId && next.generation == r.generation && next.revision == r.revision + 1
    && SameLimits(next, r) && next.handoff == r.handoff && next.repair == r.repair
    && (next.phase != Terminal ==> next.provisioning == r.provisioning && next.interruption == r.interruption)
    && (next.provisioning == r.provisioning
        || (next.provisioning.Some? && next.provisioning.value.count == Count(records, r.work, Provisioned) + 1))
    && (next.interruption == r.interruption
        || (next.interruption.Some? && next.interruption.value.count == Count(records, r.work, Cut) + 1))
    && (next.handoffIntent == r.handoffIntent
        || (next.handoffIntent.Some? && next.handoffIntent.value.round == Count(records, r.work, Handed) + 1
            && next.handoffIntent.value.round <= r.handoffLimit))
  }

  lemma ChangedAdvances(records: seq<Attempt>, i: nat, change: Change)
    requires i < |records| && records[i].phase != Terminal
    requires Changed(records, records[i], change).Some?
    ensures Advances(records, i, Changed(records, records[i], change).value.(revision := records[i].revision + 1))
  {
  }

  /** A mutation leaves the records alone or advances one live attempt, found by a token of its current revision. */
  lemma MutationShape(j: Journal, token: Token, change: Change)
    requires Reduce(j, Mutate(token, change)).Some?
    ensures var i := Find(j.records, token.attemptId); var after := Reduce(j, Mutate(token, change)).value;
      i < |j.records| && (after == j.records
        || (j.records[i].revision == token.expectedRevision && |after| == |j.records|
            && Advances(j.records, i, after[i]) && after == j.records[i := after[i]]))
  {
    var i := Find(j.records, token.attemptId);
    if j.records[i].phase != Terminal && Changed(j.records, j.records[i], change).Some? {
      ChangedAdvances(j.records, i, change);
    }
  }

  /** Advancing one live attempt changes no count in front of any attempt. */
  lemma CountsAdvanced(records: seq<Attempt>, i: nat, next: Attempt, k: nat)
    requires Owned(records) && i < |records| && Advances(records, i, next) && k < |records|
    ensures forall m :: Count(records[i := next][..k], records[k].work, m) == Count(records[..k], records[k].work, m)
    ensures Count(records[i := next][..k + 1], records[k].work, Handed)
         == Count(records[..k + 1], records[k].work, Handed)
  {
    CountsReplaced(records, i, next, k);
  }

  lemma CountsReplaced(records: seq<Attempt>, i: nat, next: Attempt, k: nat)
    requires i < |records| && k < |records| && next.work == records[i].work && next.handoff == records[i].handoff
    requires i < k ==> records[i].work != records[k].work
    ensures forall m :: Count(records[i := next][..k], records[k].work, m) == Count(records[..k], records[k].work, m)
    ensures Count(records[i := next][..k + 1], records[k].work, Handed)
         == Count(records[..k + 1], records[k].work, Handed)
  {
    forall m: Mark
      ensures Count(records[i := next][..k], records[k].work, m) == Count(records[..k], records[k].work, m)
    {
      PrefixReplaced(records, i, next, k, records[k].work, m);
    }
    if k == i {
      assert records[i := next][..i + 1] == records[..i + 1][i := next];
      CountReplaced(records[..i + 1], i, next, records[k].work, Handed);
    } else {
      PrefixReplaced(records, i, next, k + 1, records[k].work, Handed);
    }
  }

  /** Counts over the whole journal, read at a task's latest attempt. */
  lemma CountsAtLatest(records: seq<Attempt>, i: nat, m: Mark)
    requires i < |records| && forall k :: i < k < |records| ==> records[k].work != records[i].work
    ensures Count(records, records[i].work, m) == Count(records[..i + 1], records[i].work, m)
         == Count(records[..i], records[i].work, m) + (if Marked(records[i], m) then 1 else 0)
  {
    CountAfter(records, i + 1, records[i].work, m);
    CountStep(records, i, records[i].work, m);
  }

  lemma AdvanceOwned(records: seq<Attempt>, i: nat, next: Attempt)
    requires Owned(records) && i < |records| && Advances(records, i, next)
    ensures Owned(records[i := next])
  {
    var after := records[i := next];
    forall k | 0 <= k < |records|
      ensures after[k].generation == Count(after[..k], after[k].work, Any) + 1
    {
      CountsAdvanced(records, i, next, k);
    }
  }

  lemma AdvanceNumbered(records: seq<Attempt>, i: nat, next: Attempt, k: nat)
    requires Owned(records) && i < |records| && Advances(records, i, next)
    requires k < |records| && Numbered(records, i) && Numbered(records, k)
    ensures Numbered(records[i := next], k)
  {
    CountsAdvanced(records, i, next, k);
    CountsAtLatest(records, i, Provisioned);
    CountsAtLatest(records, i, Cut);
    CountsAtLatest(records, i, Handed);
  }

  lemma AdvanceDistinct(j: Journal, i: nat, next: Attempt)
    requires Distinct(j) && i < |j.records| && Advances(j.records, i, next)
    ensures Distinct(Journal(j.records[i := next], j.sequence + 1))
  {
  }

  lemma AdvanceKeeps(j: Journal, i: nat, next: Attempt)
    requires Inv(j) && i < |j.records| && Advances(j.records, i, next)
    ensures Inv(Journal(j.records[i := next], j.sequence + 1))
  {
    var after := j.records[i := next];
    AdvanceOwned(j.records, i, next);
    AdvanceDistinct(j, i, next);
    forall k | 0 <= k < |after|
      ensures Numbered(after, k)
    {
      AdvanceNumbered(j.records, i, next, k);
    }
  }

  /** A reservation follows the terminal latest attempt of its task, one generation later, on the same limits. */
  ghost predicate Follows(records: seq<Attempt>, r: Attempt) {
    var p := Latest(records, r.work);
    && r.phase == Reserved && r.provisioning.None? && r.interruption.None? && r.handoffIntent.None?
    && (p.None? ==> r.generation == 1)
    && (p.Some? ==> records[p.value].phase == Terminal && SameLimits(records[p.value], r)
                    && r.generation == records[p.value].generation + 1)
  }

  lemma FollowsGeneration(records: seq<Attempt>, r: Attempt)
    requires Owned(records) && Follows(records, r)
    ensures r.generation == Count(records, r.work, Any) + 1
  {
    var p := Latest(records, r.work);
    if p.Some? {
      CountsAtLatest(records, p.value, Any);
    } else {
      CountAfter(records, 0, r.work, Any);
    }
  }

  lemma FollowsTerminal(records: seq<Attempt>, r: Attempt, k: nat)
    requires Owned(records) && Follows(records, r) && k < |records| && records[k].work == r.work
    ensures records[k].phase == Terminal && SameLimits(records[k], r)
  {
    assert k <= Latest(records, r.work).value;
  }

  lemma FollowsOwned(records: seq<Attempt>, r: Attempt)
    requires Owned(records) && Follows(records, r)
    ensures Owned(records + [r])
  {
    var after := records + [r];
    assert after[..|records|] == records;
    FollowsGeneration(records, r);
    forall k | 0 <= k < |records|
      ensures after[k].generation == Count(after[..k], after[k].work, Any) + 1
    {
      PrefixAppended(records, r, k);
    }
    forall k | 0 <= k < |records| && records[k].work == r.work
      ensures records[k].phase == Terminal && SameLimits(records[k], r)
    {
      FollowsTerminal(records, r, k);
    }
  }

  lemma FollowsNumbered(records: seq<Attempt>, r: Attempt, k: nat)
    requires Follows(records, r) && k <= |records|
    requires k < |records| ==> Numbered(records, k)
    ensures Numbered(records + [r], k)
  {
    if k < |records| {
      PrefixAppended(records, r, k);
      PrefixAppended(records, r, k + 1);
    }
  }

  lemma ReservingFollows(j: Journal, request: Request)
    requires Reserving(j, request).Some?
    ensures Follows(j.records, Reserving(j, request).value)
  {
  }

  lemma ReservingDistinct(j: Journal, request: Request)
    requires Distinct(j) && Reserving(j, request).Some?
    ensures Distinct(Journal(j.records + [Reserving(j, request).value], j.sequence + 1))
  {
  }

  lemma ReserveKeeps(j: Journal, request: Request)
    requires Inv(j) && Reserving(j, request).Some?
    ensures Inv(Journal(j.records + [Reserving(j, request).value], j.sequence + 1))
  {
    var r := Reserving(j, request).value;
    ReservingFollows(j, request);
    FollowsOwned(j.records, r);
    var after := j.records + [r];
    forall k | 0 <= k < |after|
      ensures Numbered(after, k)
    {
      FollowsNumbered(j.records, r, k);
    }
    ReservingDistinct(j, request);
  }

  lemma ApplyKeeps(j: Journal, e: Event)
    requires Inv(j) && Apply(j, e).Some?
    ensures Inv(Apply(j, e).value)
  {
    match e
    case Reserve(request) => ReserveKeeps(j, request);
    case Mutate(token, change) =>
      MutationShape(j, token, change);
      var i := Find(j.records, token.attemptId);
      var after := Reduce(j, e).value;
      if after != j.records {
        AdvanceKeeps(j, i, after[i]);
      }
  }

  lemma {:induction false} ReplayKeeps(log: seq<Event>)
    requires Replay(log).Some?
    ensures Inv(Replay(log).value)
  {
    if log != [] {
      ReplayKeeps(log[..|log| - 1]);
      ApplyKeeps(Replay(log[..|log| - 1]).value, log[|log| - 1]);
    }
  }

  lemma {:induction false} LegalPrefix(log: seq<Event>, n: nat)
    requires Replay(log).Some? && n <= |log|
    ensures Replay(log[..n]).Some?
    decreases |log|
  {
    if n < |log| {
      LegalPrefix(log[..|log| - 1], n);
      assert log[..|log| - 1][..n] == log[..n];
    } else {
      assert log[..n] == log;
    }
  }

  /** The journal after the first `n` events. */
  ghost function At(log: seq<Event>, n: nat): Journal
    requires Replay(log).Some? && n <= |log|
  {
    LegalPrefix(log, n);
    Replay(log[..n]).value
  }

  lemma ReplayPrefix(log: seq<Event>, n: nat)
    requires n < |log| && Replay(log[..n + 1]).Some?
    ensures Replay(log[..n]).Some? && Apply(Replay(log[..n]).value, log[n]) == Replay(log[..n + 1])
  {
    assert log[..n + 1][..n] == log[..n];
  }

  lemma AtStep(log: seq<Event>, n: nat)
    requires Replay(log).Some? && n < |log|
    ensures Apply(At(log, n), log[n]) == Some(At(log, n + 1))
  {
    LegalPrefix(log, n + 1);
    ReplayPrefix(log, n);
  }

  lemma AtKeeps(log: seq<Event>, n: nat)
    requires Replay(log).Some? && n <= |log|
    ensures Inv(At(log, n))
  {
    LegalPrefix(log, n);
    ReplayKeeps(log[..n]);
  }

  // ----- Fencing -----

  /** One event never removes an attempt, never rewrites a terminal one, and never lowers a revision. */
  ghost predicate Grows(before: seq<Attempt>, after: seq<Attempt>) {
    && |before| <= |after|
    && forall i :: 0 <= i < |before| ==>
         && after[i].attemptId == before[i].attemptId && after[i].generation == before[i].generation
         && before[i].revision <= after[i].revision
         && (after[i] != before[i] ==> before[i].phase != Terminal && before[i].revision < after[i].revision)
  }

  lemma GrowsTwice(a: seq<Attempt>, b: seq<Attempt>, c: seq<Attempt>)
    requires Grows(a, b) && Grows(b, c)
    ensures Grows(a, c)
  {
  }

  lemma ApplyGrows(j: Journal, e: Event)
    requires Apply(j, e).Some?
    ensures Grows(j.records, Apply(j, e).value.records)
  {
    if e.Mutate? {
      MutationShape(j, e.token, e.change);
    }
  }

  /** A terminal attempt never changes again, over any later part of any history. */
  lemma {:induction false} TerminalForever(log: seq<Event>, n: nat, m: nat)
    requires Replay(log).Some? && n <= m <= |log|
    ensures Grows(At(log, n).records, At(log, m).records)
    decreases m
  {
    if n < m {
      TerminalForever(log, n, m - 1);
      AtStep(log, m - 1);
      ApplyGrows(At(log, m - 1), log[m - 1]);
      GrowsTwice(At(log, n).records, At(log, m - 1).records, At(log, m).records);
    }
  }

  /** A token that once changed an attempt can never change anything again. */
  lemma SpentToken(log: seq<Event>, n: nat, m: nat)
    requires Replay(log).Some? && n < m < |log| && log[n].Mutate? && log[m].Mutate?
    requires log[n].token == log[m].token && At(log, n + 1).records != At(log, n).records
    ensures At(log, m + 1).records == At(log, m).records
  {
    var token := log[n].token;
    AtStep(log, n);
    AtStep(log, m);
    AtKeeps(log, m);
    MutationShape(At(log, n), token, log[n].change);
    MutationShape(At(log, m), token, log[m].change);
    TerminalForever(log, n + 1, m);
    var i, k := Find(At(log, n).records, token.attemptId), Find(At(log, m).records, token.attemptId);
    var later := At(log, m).records;
    assert later[i].attemptId == token.attemptId == later[k].attemptId;
    assert i == k;
    assert At(log, n + 1).records[i].revision == token.expectedRevision + 1;
  }

  // ----- One legal change of a live attempt -----

  function TokenOf(r: Attempt): Token {
    Token(r.attemptId, r.generation, r.revision)
  }

  /** The attempt after a change that the reducer accepts. */
  function Next(records: seq<Attempt>, current: Attempt, change: Change): Attempt
    requires Changed(records, current, change).Some?
  {
    Changed(records, current, change).value.(revision := current.revision + 1)
  }

  lemma SameAttempt(j: Journal, i: nat, k: nat)
    requires Inv(j) && i < |j.records| && k < |j.records| && j.records[i].attemptId == j.records[k].attemptId
    ensures i == k
  {
  }

  lemma Found(j: Journal, i: nat)
    requires Inv(j) && i < |j.records|
    ensures Find(j.records, j.records[i].attemptId) == i
  {
    SameAttempt(j, Find(j.records, j.records[i].attemptId), i);
  }

  /** A current token carries out every change that its live attempt allows, and changes nothing else. */
  lemma LegalChange(j: Journal, i: nat, change: Change)
    requires Inv(j) && i < |j.records| && j.records[i].phase != Terminal
    requires Changed(j.records, j.records[i], change).Some? && !change.Recovery? && !change.HealthRecovery?
    ensures Find(j.records, j.records[i].attemptId) == i
    ensures Apply(j, Mutate(TokenOf(j.records[i]), change))
         == Some(Journal(j.records[i := Next(j.records, j.records[i], change)], j.sequence + 1))
  {
    Found(j, i);
  }

  /** A change that its attempt does not allow is refused. */
  lemma IllegalChange(j: Journal, i: nat, change: Change)
    requires Inv(j) && i < |j.records| && j.records[i].phase != Terminal
    requires Changed(j.records, j.records[i], change).None?
    requires !change.Recovery? && !change.HealthRecovery? && !change.ExternalUsage?
    ensures Apply(j, Mutate(TokenOf(j.records[i]), change)).None?
  {
    Found(j, i);
  }
}
