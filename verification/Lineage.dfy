/** Bounded lineages: the replacement budgets of a task follow from the reducer and the scheduler together.
    The reducer numbers the endings it sees; the scheduler, retry and handoff paths decide when a
    replacement may be asked for at all. */
module Lineage {
  import opened Wrappers
  import opened Identities
  import opened Assignments

  /** A queued submission of an attempt whose integration failed its verification. */
  datatype FailedJob = FailedJob(submissionId: nat, sourceCommit: nat, diagnostic: Text)

  datatype Config = Config(maxRepairAttempts: nat, maxHandoffs: nat, retryPolicy: Option<RetryPolicy>)

  /** Identities and choices that the host draws fresh for one reservation. */
  datatype Draw = Draw(workerId: nat, runtimeId: nat, external: bool, checkpoint: Text)

  function RepairFor(attempt: Attempt, failed: Option<FailedJob>): Option<Repair> {
    if attempt.phase != Terminal || attempt.stopEvidence.None? || attempt.stopEvidence.value.kind != Stopped
       || attempt.stopReason.Some? || attempt.result.None? || Round(attempt) >= Limit(attempt.repairLimit)
       || failed.None?
    then None
    else Some(Repair(attempt.attemptId, failed.value.submissionId, failed.value.sourceCommit, failed.value.diagnostic,
                     Round(attempt) + 1))
  }

  /** The one reservation path of ordinary admission and of a due provisioning replacement. */
  function ReserveDispatch(work: Work, previous: Option<Attempt>, failed: Option<FailedJob>, config: Config,
          draw: Draw): Request
  {
    match previous
    case None =>
      Request(work, draw.workerId, draw.runtimeId, if draw.external then External else Spawn,
              Some(config.maxRepairAttempts), Some(config.maxHandoffs), None, None, 0, draw.checkpoint,
              config.retryPolicy)
    case Some(p) =>
      var retry := p.provisioning.Some?;
      var repair := if RepairFor(p, failed).Some? then RepairFor(p, failed) else if retry then p.repair else None;
      Request(work, draw.workerId, draw.runtimeId,
              if (if retry then p.provider == External else draw.external) then External else Spawn,
              p.repairLimit, Some(p.handoffLimit), None, repair, p.generation,
              if retry then p.checkpoint else draw.checkpoint, Some(p.retryPolicy))
  }

  /** The dispatch loop refuses to replace an attempt that is neither repairable, interrupted nor a failed provision. */
  function Dispatch(work: Work, previous: Option<Attempt>, failed: Option<FailedJob>, config: Config,
          draw: Draw): Option<Request>
  {
    if previous.Some? && RepairFor(previous.value, failed).None?
       && previous.value.interruption.None? && previous.value.provisioning.None?
    then None
    else Some(ReserveDispatch(work, previous, failed, config, draw))
  }

  predicate RetryEligible(record: Attempt, now: nat) {
    && record.provisioning.Some? && record.provisioning.value.retryable
    && record.phase == Terminal && record.stopEvidence.Some? && record.stopEvidence.value.kind == Stopped
    && record.provisioning.value.count <= record.retryPolicy.maxAttempts
    && record.provisioning.value.notBefore <= now
  }

  function Retry(work: Work, current: Attempt, failed: Option<FailedJob>, config: Config, draw: Draw,
          now: nat): Option<Request>
  {
    if RetryEligible(current, now) then Some(ReserveDispatch(work, Some(current), failed, config, draw)) else None
  }

  /** The replacement that a durable handoff intent names, once its predecessor is proven stopped. */
  function ResumeHandoff(terminal: Attempt): Option<Request> {
    if terminal.handoffIntent.None? || terminal.phase != Terminal || terminal.stopEvidence.None?
       || terminal.stopEvidence.value.kind != Stopped || terminal.provider == External
    then None
    else var intent := terminal.handoffIntent.value;
         Some(Request(terminal.work, intent.workerId, intent.runtimeId, terminal.provider,
                      terminal.repairLimit, Some(terminal.handoffLimit),
                      Some(Handoff(terminal.attemptId, intent.id, intent.round)), terminal.repair,
                      terminal.generation, intent.checkpoint, Some(terminal.retryPolicy)))
  }

  // ----- Runs of the coordinator -----

  datatype Step =
    | Worker(token: Token, change: Change)
    | Admit(work: Work, failed: Option<FailedJob>, config: Config, draw: Draw)
    | RetryNow(work: Work, failed: Option<FailedJob>, config: Config, draw: Draw, now: nat)
    | FinishHandoff(work: Work)

  function StepEvent(j: Journal, s: Step): Option<Event> {
    match s
    case Worker(token, change) => Some(Mutate(token, change))
    case Admit(work, failed, config, draw) =>
      ReservationOf(Dispatch(work, Prior(j.records, work), failed, config, draw))
    case RetryNow(work, failed, config, draw, now) =>
      if Prior(j.records, work).None? then None
      else ReservationOf(Retry(work, Prior(j.records, work).value, failed, config, draw, now))
    case FinishHandoff(work) =>
      if Prior(j.records, work).None? then None else ReservationOf(ResumeHandoff(Prior(j.records, work).value))
  }

  function ReservationOf(request: Option<Request>): Option<Event> {
    if request.Some? then Some(Reserve(request.value)) else None
  }

  function Perform(j: Journal, s: Step): Option<Journal> {
    var e := StepEvent(j, s);
    if e.Some? then Apply(j, e.value) else None
  }

  function Execute(steps: seq<Step>): Option<Journal> {
    if steps == [] then Some(Journal([], 0))
    else match Execute(steps[..|steps| - 1])
         case None => None
         case Some(j) => Perform(j, steps[|steps| - 1])
  }

  // ----- Budgets -----

  function Spare(limit: nat): nat { if limit == 0 then 0 else limit - 1 }

  /** How an attempt's generation is paid for, given the marks before it along its task. */
  predicate BudgetedAs(r: Attempt, handed: nat, provisioned: nat, cut: nat) {
    && Round(r) <= Limit(r.repairLimit)
    && handed <= r.handoffLimit
    && provisioned <= r.retryPolicy.maxAttempts
    && cut <= Spare(Limit(r.repairLimit))
    && r.generation <= 1 + handed + Round(r) + provisioned + cut
  }

  ghost predicate Budgeted(records: seq<Attempt>, j: nat)
    requires j < |records|
  {
    BudgetedAs(records[j], Count(records[..j + 1], records[j].work, Handed),
               Count(records[..j], records[j].work, Provisioned), Count(records[..j], records[j].work, Cut))
  }

  ghost predicate AllBudgeted(records: seq<Attempt>) {
    forall j :: 0 <= j < |records| ==> Budgeted(records, j)
  }

  /** The guard that the three paths put in front of the reducer. */
  predicate Scheduled(prior: Option<Attempt>, request: Request) {
    prior.Some? ==>
      || request.handoff.Some?
      || prior.value.interruption.Some? || prior.value.provisioning.Some?
      || (request.repair.Some? && request.repair.value.round == Round(prior.value) + 1)
  }

  lemma StepScheduled(j: Journal, s: Step)
    requires StepEvent(j, s).Some? && StepEvent(j, s).value.Reserve?
    ensures Scheduled(Prior(j.records, StepEvent(j, s).value.request.work), StepEvent(j, s).value.request)
  {
  }

  lemma AdvanceBudgeted(records: seq<Attempt>, i: nat, next: Attempt, k: nat)
    requires Owned(records) && i < |records| && Advances(records, i, next)
    requires k < |records| && Budgeted(records, k)
    ensures Budgeted(records[i := next], k)
  {
    CountsAdvanced(records, i, next, k);
  }

  /** The replacement arithmetic: each way of ending the predecessor is paid from its own budget. */
  lemma ReplacementPaid(p: Attempt, r: Attempt, request: Request, handed: nat, provisioned: nat, cut: nat,
          policy: RetryPolicy)
    requires BudgetedAs(p, handed, provisioned, cut) && NumberedAs(p, provisioned, cut, handed)
    requires BudgetAllowed(p, request, r.handoffLimit, policy) && r.retryPolicy == policy
    requires RepairAllowed(Some(p), request) && HandoffAllowed(Some(p), request, r.handoffLimit)
    requires Scheduled(Some(p), request) && r.generation == p.generation + 1
    requires r.repair == request.repair && r.handoff == request.handoff && r.repairLimit == request.repairLimit
    ensures BudgetedAs(r, handed + (if r.handoff.Some? then 1 else 0),
                       provisioned + (if p.provisioning.Some? then 1 else 0),
                       cut + (if p.interruption.Some? then 1 else 0))
  {
  }

  lemma ReserveBudgeted(j: Journal, request: Request)
    requires Inv(j) && AllBudgeted(j.records) && Reserving(j, request).Some?
    requires Scheduled(Prior(j.records, request.work), request)
    ensures var r := Reserving(j, request).value;
      BudgetedAs(r, Count(j.records, r.work, Handed) + (if r.handoff.Some? then 1 else 0),
                 Count(j.records, r.work, Provisioned), Count(j.records, r.work, Cut))
  {
    var records, r := j.records, Reserving(j, request).value;
    var i := Latest(records, request.work);
    if i.Some? {
      assert Budgeted(records, i.value) && Numbered(records, i.value);
      ReplacementBudgeted(records, i.value, r, request);
    } else {
      CountAfter(records, 0, r.work, Handed);
      CountAfter(records, 0, r.work, Provisioned);
      CountAfter(records, 0, r.work, Cut);
    }
  }

  lemma ReplacementBudgeted(records: seq<Attempt>, i: nat, r: Attempt, request: Request)
    requires i < |records| && records[i].work == r.work && forall k :: i < k < |records| ==> records[k].work != r.work
    requires Budgeted(records, i) && Numbered(records, i)
    requires BudgetAllowed(records[i], request, r.handoffLimit, r.retryPolicy)
    requires RepairAllowed(Some(records[i]), request) && HandoffAllowed(Some(records[i]), request, r.handoffLimit)
    requires Scheduled(Some(records[i]), request) && r.generation == records[i].generation + 1
    requires r.repair == request.repair && r.handoff == request.handoff && r.repairLimit == request.repairLimit
    ensures BudgetedAs(r, Count(records, r.work, Handed) + (if r.handoff.Some? then 1 else 0),
                       Count(records, r.work, Provisioned), Count(records, r.work, Cut))
  {
    CountsAtLatest(records, i, Handed);
    CountsAtLatest(records, i, Provisioned);
    CountsAtLatest(records, i, Cut);
    ReplacementPaid(records[i], r, request, Count(records[..i + 1], r.work, Handed),
                    Count(records[..i], r.work, Provisioned), Count(records[..i], r.work, Cut), r.retryPolicy);
  }

  lemma AppendBudgeted(records: seq<Attempt>, r: Attempt, k: nat)
    requires k <= |records| && (k < |records| ==> Budgeted(records, k))
    requires BudgetedAs(r, Count(records, r.work, Handed) + (if r.handoff.Some? then 1 else 0),
                        Count(records, r.work, Provisioned), Count(records, r.work, Cut))
    ensures Budgeted(records + [r], k)
  {
    var after := records + [r];
    PrefixAppended(records, r, k);
    if k < |records| {
      PrefixAppended(records, r, k + 1);
    } else {
      assert after[..k] == records;
      CountStep(after, k, r.work, Handed);
    }
  }

  lemma PerformKeeps(j: Journal, s: Step)
    requires Inv(j) && AllBudgeted(j.records) && Perform(j, s).Some?
    ensures Inv(Perform(j, s).value) && AllBudgeted(Perform(j, s).value.records)
  {
    var e := StepEvent(j, s).value;
    ApplyKeeps(j, e);
    match e
    case Reserve(request) =>
      StepScheduled(j, s);
      ReserveBudgeted(j, request);
      var r := Reserving(j, request).value;
      var after := j.records + [r];
      forall k | 0 <= k < |after|
        ensures Budgeted(after, k)
      {
        AppendBudgeted(j.records, r, k);
      }
    case Mutate(token, change) =>
      MutationShape(j, token, change);
      var i := Find(j.records, token.attemptId);
      var after := Apply(j, e).value.records;
      if after != j.records {
        forall k | 0 <= k < |after|
          ensures Budgeted(after, k)
        {
          AdvanceBudgeted(j.records, i, after[i], k);
        }
      }
  }

  lemma {:induction false} ExecuteKeeps(steps: seq<Step>)
    requires Execute(steps).Some?
    ensures Inv(Execute(steps).value) && AllBudgeted(Execute(steps).value.records)
  {
    if steps != [] {
      ExecuteKeeps(steps[..|steps| - 1]);
      PerformKeeps(Execute(steps[..|steps| - 1]).value, steps[|steps| - 1]);
    }
  }

  /** Whatever workers, crashes and operators do, a task never has more generations than its budgets pay for. */
  lemma BoundedLineage(steps: seq<Step>, i: nat)
    requires Execute(steps).Some? && i < |Execute(steps).value.records|
    ensures var r := Execute(steps).value.records[i]; var repairs := Limit(r.repairLimit);
      r.generation <= 1 + repairs + Spare(repairs) + r.retryPolicy.maxAttempts + r.handoffLimit
  {
    ExecuteKeeps(steps);
    assert Budgeted(Execute(steps).value.records, i);
  }

  // ----- The reducer alone does not bound a lineage -----

  const CHURNED := Work(1, 1, 1)

  function ChurnRequest(k: nat): Request
    requires k > 0
  {
    Request(CHURNED, k, k, Spawn, None, None, None, None, k - 1, "", None)
  }

  /** `n` attempts of one task, each retired without a result, report, failure or interruption. */
  function Churn(n: nat): seq<Event> {
    if n == 0 then []
    else Churn(n - 1) + [Reserve(ChurnRequest(n)),
                         Mutate(Token(2 * n - 1, n, 1), Retired(StopEvidence(n, Stopped, "")))]
  }

  function Churned(k: nat): Attempt
    requires k > 0
  {
    Attempt(CHURNED, k, k, Spawn, None, 1, None, None, "", LEGACY_RETRY_POLICY, 2 * k - 1, k, 2, Terminal,
            None, None, None, None, Some(StopEvidence(k, Stopped, "")), None, None, None, None)
  }

  function AllChurned(n: nat): (r: seq<Attempt>)
    ensures |r| == n && forall i :: 0 <= i < n ==> r[i] == Churned(i + 1)
  {
    if n == 0 then [] else AllChurned(n - 1) + [Churned(n)]
  }

  lemma ChurnPrior(n: nat)
    requires n > 0
    ensures Prior(AllChurned(n - 1), CHURNED) == if n == 1 then None else Some(Churned(n - 1))
  {
    var records := AllChurned(n - 1);
    if n > 1 {
      assert records[n - 2].work == CHURNED;
    }
  }

  function ChurnReserved(n: nat): Attempt
    requires n > 0
  {
    Churned(n).(revision := 1, phase := Reserved, stopEvidence := None)
  }

  lemma ChurnReserves(n: nat)
    requires n > 0
    ensures Reserving(Journal(AllChurned(n - 1), 2 * (n - 1)), ChurnRequest(n)) == Some(ChurnReserved(n))
  {
    ChurnPrior(n);
    var records := AllChurned(n - 1);
    forall r | r in records
      ensures r.phase == Terminal && r.runtimeId < n
    {
      var i :| 0 <= i < n - 1 && records[i] == r;
    }
  }

  lemma ChurnRetires(n: nat)
    requires n > 0
    ensures Apply(Journal(AllChurned(n - 1) + [ChurnReserved(n)], 2 * n - 1),
                  Mutate(Token(2 * n - 1, n, 1), Retired(StopEvidence(n, Stopped, ""))))
         == Some(Journal(AllChurned(n), 2 * n))
  {
    var records := AllChurned(n - 1) + [ChurnReserved(n)];
    assert records[n - 1] == ChurnReserved(n);
    assert forall k :: 0 <= k < n - 1 ==> records[k] == Churned(k + 1);
    assert Find(records, 2 * n - 1) == n - 1;
    assert records[n - 1 := Churned(n)] == AllChurned(n);
  }

  lemma ReplayOne(log: seq<Event>, e: Event, whole: seq<Event>)
    requires Replay(log).Some? && whole == log + [e]
    ensures Replay(whole) == Apply(Replay(log).value, e)
  {
    assert whole[..|whole| - 1] == log;
  }

  lemma ChurnReserveApplied(n: nat)
    requires n > 0
    ensures Apply(Journal(AllChurned(n - 1), 2 * (n - 1)), Reserve(ChurnRequest(n)))
         == Some(Journal(AllChurned(n - 1) + [ChurnReserved(n)], 2 * n - 1))
  {
    ChurnReserves(n);
  }

  /** One more generation on top of any log that ends in churn. */
  lemma ChurnOnce(log: seq<Event>, n: nat, whole: seq<Event>)
    requires n > 0 && Replay(log) == Some(Journal(AllChurned(n - 1), 2 * (n - 1)))
    requires whole == log
             + [Reserve(ChurnRequest(n)), Mutate(Token(2 * n - 1, n, 1), Retired(StopEvidence(n, Stopped, "")))]
    ensures Replay(whole) == Some(Journal(AllChurned(n), 2 * n))
  {
    var middle := whole[..|log| + 1];
    ReplayOne(log, Reserve(ChurnRequest(n)), middle);
    ChurnReserveApplied(n);
    ReplayOne(middle, Mutate(Token(2 * n - 1, n, 1), Retired(StopEvidence(n, Stopped, ""))), whole);
    ChurnRetires(n);
  }

  /** The reducer accepts any number of generations: the bound needs the scheduler's guard. */
  lemma {:induction false} ReducerAloneUnbounded(n: nat)
    ensures Replay(Churn(n)) == Some(Journal(AllChurned(n), 2 * n))
    ensures n > 0 ==> AllChurned(n)[n - 1].generation == n
  {
    if n > 0 {
      ReducerAloneUnbounded(n - 1);
      ChurnOnce(Churn(n - 1), n, Churn(n));
    }
  }
}
