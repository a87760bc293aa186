/** Health of attempts: how one observation is classified, when an operator is called, and the journal that
    records only what changed. */
module HealthModel {
  import opened Wrappers
  import opened Identities
  import opened Keyed

  const MAX_SAFE_INTEGER: nat := 0x1F_FFFF_FFFF_FFFF

  datatype Provider = Dsh | Foreign | UnknownProvider

  datatype WorkState = ActiveWork | DependencyWait | OperatorWait | FailedWork | UnavailableWork

  datatype Availability = Available | Unavailable | UnknownAvailability

  datatype Execution = KnownActive | IdleRun | WaitingRun | FailedRun | UnknownRun

  datatype Progress = Progress(source: Text, cursor: Text)

  datatype Seen = Seen(progress: Progress, at: nat)

  datatype Observation = Observation(
    attemptId: Text,
    generation: nat,
    provider: Provider,
    work: Work,
    workState: WorkState,
    availability: Availability,
    execution: Execution,
    progress: Option<Progress>,
    diagnostic: Option<Text>,
    evidence: Option<Text>)

  datatype Classification = Progressing | Idle | AwaitsDependency | AwaitsOperator | Stale | Unreachable | Broken

  datatype Certainty = Known | Uncertain

  datatype Clearance = Clearance(source: Text, receiptId: Text, at: nat)

  datatype Health = Health(
    attemptId: Text,
    generation: nat,
    provider: Provider,
    work: Work,
    workState: WorkState,
    classification: Classification,
    certainty: Certainty,
    deadlineMs: nat,
    cooldownMs: nat,
    maxEscalations: nat,
    deadlineAt: nat,
    observedAt: nat,
    lastProgress: Option<Seen>,
    revision: nat,
    diagnostic: Option<Text>,
    evidence: Option<Text>,
    clearance: Option<Clearance>)

  datatype Resolution =
    | ConditionCleared(at: nat)
    | AcceptedTerminal(source: Text, at: nat)
    | HandoffReplaced(replacement: Text, at: nat)

  /** A call for an operator. Its id is the number of the journal record that raised it. */
  datatype Escalation = Escalation(
    id: nat,
    attemptId: Text,
    generation: nat,
    condition: Classification,
    workState: WorkState,
    cooldownUntil: nat,
    revision: nat,
    resolution: Option<Resolution>)

  datatype State = State(health: seq<Health>, escalations: seq<Escalation>, sequence: nat)

  const EMPTY := State([], [], 0)

  datatype Config = Config(dshDeadlineMs: nat, foreignDeadlineMs: nat, cooldownMs: nat, maxEscalations: nat)

  datatype Error = ClockBackwards | BindingChanged | DeadlineOverflow | CooldownOverflow | NotCurrent | AlreadyActive
                 | UnknownEscalation | AlreadyResolved | NotCleared | UnknownAttempt | DifferentClearance | NotHandedOff

  type Key = (Text, nat)

  function HealthKey(h: Health): Key {
    (h.attemptId, h.generation)
  }

  function KeyOf(o: Observation): Key {
    (o.attemptId, o.generation)
  }

  function EscalationKey(e: Escalation): Key {
    (e.attemptId, e.generation)
  }

  function EscalationId(e: Escalation): nat {
    e.id
  }

  function HealthAt(s: State, k: Key): Option<Health> {
    var i := Find(s.health, HealthKey, k);
    if i < |s.health| then Some(s.health[i]) else None
  }

  // ----- One observation -----

  function Classify(workState: WorkState, availability: Availability, execution: Execution, deadlineAt: nat, now: nat,
          changed: bool):
      (Classification, Certainty) {
    if workState == FailedWork || execution == FailedRun then (Broken, Known)
    else if workState == DependencyWait then (AwaitsDependency, Known)
    else if workState == OperatorWait then (AwaitsOperator, Known)
    else if workState == UnavailableWork || availability != Available || execution == UnknownRun
    then (Unreachable, Uncertain)
    else if changed then (Progressing, Known)
    else if execution == KnownActive && now < deadlineAt then (Progressing, Known)
    else if now >= deadlineAt then (Stale, Known)
    else (Idle, Known)
  }

  function ProgressChanged(prior: Option<Health>, o: Observation): bool {
    o.progress.Some?
    && (prior.None? || prior.value.lastProgress.None? || prior.value.lastProgress.value.progress != o.progress.value)
  }

  predicate SafeSum(a: nat, b: nat) {
    a + b <= MAX_SAFE_INTEGER
  }

  /** The record after one observation. What the first observation pinned stays, and only new progress moves the
      deadline. */
  function Observe(prior: Option<Health>, o: Observation, now: nat, deadlineMs: nat, cooldownMs: nat,
          maxEscalations: nat):
      Result<Health, Error> {
    if prior.Some? && now < prior.value.observedAt then Err(ClockBackwards)
    else if prior.Some? && (prior.value.provider != o.provider || prior.value.work != o.work) then Err(BindingChanged)
    else
      var changed := ProgressChanged(prior, o);
      var pinned := if prior.Some? then prior.value.deadlineMs else deadlineMs;
      if (changed || prior.None?) && !SafeSum(now, pinned) then Err(DeadlineOverflow) else
      var deadlineAt := if changed || prior.None? then now + pinned else prior.value.deadlineAt;
      var verdict := Classify(o.workState, o.availability, o.execution, deadlineAt, now, changed);
      Ok(Health(
           o.attemptId, o.generation, o.provider, o.work, o.workState, verdict.0, verdict.1, pinned,
           if prior.Some? then prior.value.cooldownMs else cooldownMs,
           if prior.Some? then prior.value.maxEscalations else maxEscalations,
           deadlineAt, now,
           if changed then Some(Seen(o.progress.value, now))
           else if prior.Some? then prior.value.lastProgress
           else None,
           if prior.Some? then prior.value.revision + 1 else 1,
           if o.diagnostic.Some? then o.diagnostic else if prior.Some? then prior.value.diagnostic else None,
           if o.evidence.Some? then o.evidence else if prior.Some? then prior.value.evidence else None,
           if prior.Some? then prior.value.clearance else None))
  }

  /** Whether an observation is worth a record. */
  predicate WorthRecording(prior: Option<Health>, o: Observation, next: Health) {
    || prior.None? || ProgressChanged(prior, o)
    || next.classification != prior.value.classification || next.certainty != prior.value.certainty
    || next.diagnostic != prior.value.diagnostic || next.evidence != prior.value.evidence
  }

  predicate Recovered(h: Health) {
    h.classification == Progressing || h.classification == AwaitsDependency || h.classification == AwaitsOperator
  }

  // ----- The reducer -----

  datatype Event =
    | Observed(o: Observation, at: nat, deadlineMs: nat, cooldownMs: nat, maxEscalations: nat)
    | Escalated(key: Key, condition: Classification, at: nat, cooldownUntil: nat)
    | Resolved(id: nat, at: nat)
    | HandedOff(id: nat, replacement: Text, at: nat)
    | Cleared(key: Key, source: Text, receiptId: Text, at: nat)

  predicate OpenFor(e: Escalation, k: Key, condition: Classification) {
    EscalationKey(e) == k && e.condition == condition && e.resolution.None?
  }

  predicate Active(s: State, k: Key, condition: Classification) {
    exists i :: 0 <= i < |s.escalations| && OpenFor(s.escalations[i], k, condition)
  }

  function Closed(e: Escalation, r: Resolution): Escalation {
    e.(resolution := Some(r), revision := e.revision + 1)
  }

  function Accepted(e: Escalation, k: Key, source: Text, at: nat): Escalation {
    if EscalationKey(e) != k || e.resolution.Some? then e else Closed(e, AcceptedTerminal(source, at))
  }

  function AcceptAll(es: seq<Escalation>, k: Key, source: Text, at: nat): seq<Escalation> {
    seq(|es|, i requires 0 <= i < |es| => Accepted(es[i], k, source, at))
  }

  function Reduce(s: State, e: Event): Result<State, Error> {
    match e
    case Observed(o, at, deadlineMs, cooldownMs, maxEscalations) =>
      (match Observe(HealthAt(s, KeyOf(o)), o, at, deadlineMs, cooldownMs, maxEscalations)
       case Err(error) => Err(error)
       case Ok(h) => Ok(State(Put(s.health, HealthKey, h), s.escalations, s.sequence + 1)))
    case Escalated(k, condition, at, cooldownUntil) =>
      var h := HealthAt(s, k);
      if h.None? || h.value.classification != condition then Err(NotCurrent)
      else if Active(s, k, condition) then Err(AlreadyActive)
      else Ok(State(s.health, s.escalations + [Raised(h.value, s.sequence + 1, cooldownUntil)], s.sequence + 1))
    case Resolved(id, at) =>
      var i := Find(s.escalations, EscalationId, id);
      if i == |s.escalations| then Err(UnknownEscalation)
      else if s.escalations[i].resolution.Some? then Err(AlreadyResolved)
      else
        var h := HealthAt(s, EscalationKey(s.escalations[i]));
        if h.None? || h.value.classification == s.escalations[i].condition || !Recovered(h.value) then Err(NotCleared)
        else Ok(State(s.health, s.escalations[i := Closed(s.escalations[i], ConditionCleared(at))], s.sequence + 1))
    case HandedOff(id, replacement, at) =>
      var i := Find(s.escalations, EscalationId, id);
      if i == |s.escalations| then Err(UnknownEscalation)
      else if s.escalations[i].resolution.Some? || s.escalations[i].condition != Stale
              || replacement == s.escalations[i].attemptId
      then Err(NotHandedOff)
      else Ok(State(s.health, s.escalations[i := Closed(s.escalations[i], HandoffReplaced(replacement, at))],
                    s.sequence + 1))
    case Cleared(k, source, receiptId, at) =>
      var i := Find(s.health, HealthKey, k);
      if i == |s.health| then Err(UnknownAttempt)
      else
        var h := s.health[i];
        if h.clearance.Some? && (h.clearance.value.source != source || h.clearance.value.receiptId != receiptId)
        then Err(DifferentClearance)
        else Ok(State(if h.clearance.Some? then s.health
                      else s.health[i := h.(clearance := Some(Clearance(source, receiptId, at)),
                                            revision := h.revision + 1)],
                      AcceptAll(s.escalations, k, source, at), s.sequence + 1))
  }

  function Raised(h: Health, id: nat, cooldownUntil: nat): Escalation {
    Escalation(id, h.attemptId, h.generation, h.classification, h.workState, cooldownUntil, 1, None)
  }

  // ----- One assessment -----

  /** Whether a recovery answers this escalation. */
  predicate Answers(h: Health, e: Escalation) {
    EscalationKey(e) == HealthKey(h) && e.resolution.None? && e.condition != h.classification && Recovered(h)
  }

  /** Resolve, one record each, the escalations that a recovery answers, from the `i`-th on. */
  function ResolveFrom(s: State, h: Health, now: nat, i: nat): State
    requires i <= |s.escalations|
    decreases |s.escalations| - i
  {
    if i == |s.escalations| then s
    else if !Answers(h, s.escalations[i]) then ResolveFrom(s, h, now, i + 1)
    else ResolveFrom(State(s.health, s.escalations[i := Closed(s.escalations[i], ConditionCleared(now))],
                           s.sequence + 1), h, now, i + 1)
  }

  function Incidents(es: seq<Escalation>, k: Key, condition: Classification): seq<Escalation> {
    if es == [] then [] else
    var last := es[|es| - 1];
    Incidents(es[..|es| - 1], k, condition)
    + (if EscalationKey(last) == k && last.condition == condition then [last] else [])
  }

  /** Whether an operator is due a call: within the pinned number, after the last call's cooldown, none open. */
  predicate Due(s: State, h: Health, now: nat) {
    && (h.classification == Stale || h.classification == Broken) && !Active(s, HealthKey(h), h.classification)
    && var past := Incidents(s.escalations, HealthKey(h), h.classification);
       |past| < h.maxEscalations && (past == [] || now >= past[|past| - 1].cooldownUntil)
  }

  datatype Assessment = Assessment(state: State, outcome: Result<Health, Error>, raised: Option<Escalation>)

  function Escalate(s: State, h: Health, now: nat): Assessment {
    if !Due(s, h, now) then Assessment(s, Ok(h), None)
    else if !SafeSum(now, h.cooldownMs) then Assessment(s, Err(CooldownOverflow), None)
    else
      var e := Raised(h, s.sequence + 1, now + h.cooldownMs);
      Assessment(State(s.health, s.escalations + [e], s.sequence + 1), Ok(h), Some(e))
  }

  function DeadlineOf(c: Config, o: Observation): nat {
    if o.provider == Dsh then c.dshDeadlineMs else c.foreignDeadlineMs
  }

  /** One assessment by a store that records every observation (`eager`), or only what changed. */
  function Assess(s: State, c: Config, o: Observation, now: nat, eager: bool): Assessment {
    var prior := HealthAt(s, KeyOf(o));
    match Observe(prior, o, now, DeadlineOf(c, o), c.cooldownMs, c.maxEscalations)
    case Err(error) => Assessment(s, Err(error), None)
    case Ok(next) =>
      if eager || WorthRecording(prior, o, next)
      then Settle(Stored(s, next), next, now)
      else Settle(s, prior.value, now)
  }

  function Stored(s: State, h: Health): State {
    State(Put(s.health, HealthKey, h), s.escalations, s.sequence + 1)
  }

  function Settle(s: State, h: Health, now: nat): Assessment {
    Escalate(ResolveFrom(s, h, now, 0), h, now)
  }
}
