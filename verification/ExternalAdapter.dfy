/** Assignments joined to external runtimes: an attempt's capacity is released only on proof that its runtime
    ended, or that none was ever intended. */
module ExternalAdapters {
  import opened Wrappers
  import opened Identities
  import A = Assignments
  import X = ExternalRuntimes

  const SHUTDOWN: Text := "Coordinator shutdown"

  const CANCELLED_UNASKED: Text := "External runtime cancelled without a prior assignment cancellation receipt"
  const ENDED_UNREPORTED: Text := "External runtime failed or completed without a final report"

  function AttemptKey(r: A.Attempt): X.Key {
    (r.attemptId, r.generation)
  }

  function StopReceipt(t: X.Terminal): Text {
    "external/" + t.receipt.receiptId
  }

  // ----- What evidence rests on -----

  /** "Stopped" names the terminal receipt of this very runtime; "never started" means that no launch was intended. */
  predicate Backed(records: seq<X.Record>, k: X.Key, evidence: A.StopEvidence) {
    var runtime := X.RecordAt(records, k);
    match evidence.kind
    case Stopped => runtime.Some? && runtime.value.terminal.Some?
                    && evidence.receipt == StopReceipt(runtime.value.terminal.value)
    case NeverStarted => runtime.None?
  }

  predicate Released(r: A.Attempt, records: seq<X.Record>) {
    r.provider == A.External && r.phase == A.Terminal ==>
      r.stopEvidence.Some? && Backed(records, AttemptKey(r), r.stopEvidence.value)
  }

  ghost predicate Joint(j: A.Journal, records: seq<X.Record>) {
    && A.Inv(j) && X.Inv(records)
    && forall i :: 0 <= i < |j.records| ==> Released(j.records[i], records)
  }

  predicate Ends(change: A.Change) {
    change.Retired? || change.Interrupted? || change.ProvisionFailed?
  }

  /** An ending is written only on evidence that holds now. */
  predicate MayMutate(records: seq<X.Record>, token: A.Token, change: A.Change) {
    Ends(change) ==> Backed(records, (token.attemptId, token.generation), change.evidence)
  }

  /** The attempt of this key is alive now. */
  predicate MayLaunch(j: A.Journal, k: X.Key) {
    exists i :: 0 <= i < |j.records| && AttemptKey(j.records[i]) == k && j.records[i].phase != A.Terminal
  }

  /** Only the three endings end an attempt, and each keeps the evidence it was given. */
  lemma EndedBy(records: seq<A.Attempt>, current: A.Attempt, change: A.Change)
    requires current.phase != A.Terminal && A.Changed(records, current, change).Some?
    ensures var next := A.Changed(records, current, change).value;
            && (next.phase == A.Terminal <==> Ends(change))
            && (Ends(change) ==> next.stopEvidence == Some(change.evidence))
            && AttemptKey(next) == AttemptKey(current) && next.provider == current.provider
  {
  }

  lemma MutateKeeps(j: A.Journal, records: seq<X.Record>, token: A.Token, change: A.Change)
    requires Joint(j, records) && MayMutate(records, token, change) && A.Apply(j, A.Event.Mutate(token, change)).Some?
    ensures Joint(A.Apply(j, A.Event.Mutate(token, change)).value, records)
  {
    A.ApplyKeeps(j, A.Event.Mutate(token, change));
    MutationReleases(j, records, token, change);
  }

  lemma MutationReleases(j: A.Journal, records: seq<X.Record>, token: A.Token, change: A.Change)
    requires forall i :: 0 <= i < |j.records| ==> Released(j.records[i], records)
    requires MayMutate(records, token, change) && A.Reduce(j, A.Event.Mutate(token, change)).Some?
    ensures var after := A.Reduce(j, A.Event.Mutate(token, change)).value;
            forall k :: 0 <= k < |after| ==> Released(after[k], records)
  {
    var i := A.Find(j.records, token.attemptId);
    if j.records[i].phase != A.Terminal && A.Changed(j.records, j.records[i], change).Some? {
      EndedBy(j.records, j.records[i], change);
    }
  }

  lemma ReserveKeeps(j: A.Journal, records: seq<X.Record>, request: A.Request)
    requires Joint(j, records) && A.Apply(j, A.Event.Reserve(request)).Some?
    ensures Joint(A.Apply(j, A.Event.Reserve(request)).value, records)
  {
    A.ApplyKeeps(j, A.Event.Reserve(request));
  }

  /** Whatever a runtime's journal records about launches that were intended, no proof is lost. */
  lemma RuntimeKeeps(j: A.Journal, records: seq<X.Record>, k: X.Key, change: X.Change, at: nat)
    requires Joint(j, records) && X.Reduce(records, X.Observe(k, change, at)).Some?
    ensures Joint(j, X.Reduce(records, X.Observe(k, change, at)).value)
  {
    X.ObserveKeeps(records, k, change, at);
    var after := X.Reduce(records, X.Observe(k, change, at)).value;
    forall i | 0 <= i < |j.records| ensures Released(j.records[i], after) {
      assert Released(j.records[i], records);
      var at := AttemptKey(j.records[i]);
      assert X.RecordAt(records, at).Some? ==> X.Later(X.RecordAt(records, at).value, X.RecordAt(after, at).value);
    }
  }

  /** Intending a launch keeps every proof exactly when no attempt of that key ended as never started. */
  lemma LaunchKeepsIff(j: A.Journal, records: seq<X.Record>, k: X.Key, intent: Text, at: nat)
    requires Joint(j, records) && X.RecordAt(records, k).None?
    ensures var after := X.Reduce(records, X.Intent(k, intent, at)).value;
            (forall i :: 0 <= i < |j.records| ==> Released(j.records[i], after))
            <==> !exists i :: 0 <= i < |j.records| && AttemptKey(j.records[i]) == k && j.records[i].phase == A.Terminal
                              && j.records[i].provider == A.External
  {
    X.IntentKeeps(records, k, intent, at);
    var after := X.Reduce(records, X.Intent(k, intent, at)).value;
    forall i | 0 <= i < |j.records|
      ensures Released(j.records[i], after) <==>
                !(AttemptKey(j.records[i]) == k && j.records[i].phase == A.Terminal
                  && j.records[i].provider == A.External)
    {
      assert Released(j.records[i], records);
    }
  }

  lemma LaunchKeeps(j: A.Journal, records: seq<X.Record>, k: X.Key, intent: Text, at: nat)
    requires Joint(j, records) && X.RecordAt(records, k).None? && MayLaunch(j, k)
    ensures Joint(j, X.Reduce(records, X.Intent(k, intent, at)).value)
  {
    X.IntentKeeps(records, k, intent, at);
    LaunchKeepsIff(j, records, k, intent, at);
    var live :| 0 <= live < |j.records| && AttemptKey(j.records[live]) == k && j.records[live].phase != A.Terminal;
    forall i | 0 <= i < |j.records| && AttemptKey(j.records[i]) == k ensures i == live {
      A.SameAttempt(j, i, live);
    }
  }

  /** A released external attempt holds no runtime capacity. */
  lemma ReleasedHoldsNothing(j: A.Journal, records: seq<X.Record>, i: nat)
    requires Joint(j, records) && i < |j.records| && j.records[i].provider == A.External
             && j.records[i].phase == A.Terminal
    ensures X.RecordAt(records, AttemptKey(j.records[i])).Some? ==>
              !X.RecordAt(records, AttemptKey(j.records[i])).value.retainsCapacity
  {
    assert Released(j.records[i], records);
  }

  // ----- Whole runs -----

  /** One record written by either journal. */
  datatype Step =
    | Assign(event: A.Event)
    | Launch(key: X.Key, intent: Text, at: nat)
    | Supervised(key: X.Key, change: X.Change, at: nat)

  datatype Both = Both(journal: A.Journal, records: seq<X.Record>)

  function Perform(b: Both, step: Step): Option<Both> {
    match step
    case Assign(event) =>
      (match A.Apply(b.journal, event)
       case None => None
       case Some(j) => Some(Both(j, b.records)))
    case Launch(k, intent, at) =>
      (match X.Reduce(b.records, X.Intent(k, intent, at))
       case None => None
       case Some(records) => Some(Both(b.journal, records)))
    case Supervised(k, change, at) =>
      (match X.Reduce(b.records, X.Observe(k, change, at))
       case None => None
       case Some(records) => Some(Both(b.journal, records)))
  }

  /** Which records the coordinator's programs write. An ending is written only on evidence; a new launch is intended
      only for an attempt that is alive, because the coordinator starts an attempt in the same serialized run that
      found it reserved: the adapter itself does not check. */
  predicate Permitted(b: Both, step: Step) {
    match step
    case Assign(event) => event.Mutate? ==> MayMutate(b.records, event.token, event.change)
    case Launch(k, _, _) => X.RecordAt(b.records, k).Some? || MayLaunch(b.journal, k)
    case Supervised(_, _, _) => true
  }

  function Run(steps: seq<Step>): Option<Both> {
    if steps == [] then Some(Both(A.Journal([], 0), [])) else
    match Run(steps[..|steps| - 1])
    case None => None
    case Some(b) => if Permitted(b, steps[|steps| - 1]) then Perform(b, steps[|steps| - 1]) else None
  }

  /** Over any interleaving of both journals, every external attempt that ended has its proof. */
  lemma {:induction false} RunReleased(steps: seq<Step>)
    requires Run(steps).Some?
    ensures Joint(Run(steps).value.journal, Run(steps).value.records)
  {
    if steps == [] {
      A.ReplayKeeps([]);
    } else {
      var b := Run(steps[..|steps| - 1]).value;
      RunReleased(steps[..|steps| - 1]);
      match steps[|steps| - 1] {
        case Assign(event) =>
          if event.Mutate? {
            MutateKeeps(b.journal, b.records, event.token, event.change);
          } else {
            ReserveKeeps(b.journal, b.records, event.request);
          }
        case Launch(k, intent, at) =>
          if X.RecordAt(b.records, k).None? {
            LaunchKeeps(b.journal, b.records, k, intent, at);
          }
        case Supervised(k, change, at) => RuntimeKeeps(b.journal, b.records, k, change, at);
      }
    }
  }

  lemma RunOne(steps: seq<Step>, step: Step)
    requires Run(steps).Some? && Permitted(Run(steps).value, step)
    ensures Run(steps + [step]) == Perform(Run(steps).value, step)
  {
    assert (steps + [step])[..|steps|] == steps;
  }

  lemma SupervisedKeeps(steps: seq<Step>, b: Both, k: X.Key, change: X.Change, at: nat)
    requires Run(steps) == Some(b) && Joint(b.journal, b.records)
    requires X.Reduce(b.records, X.Observe(k, change, at)).Some?
    ensures var after := X.Reduce(b.records, X.Observe(k, change, at)).value;
      && Run(steps + [Supervised(k, change, at)]) == Some(Both(b.journal, after))
      && Joint(b.journal, after) && X.Grows(b.records, after)
  {
    RuntimeKeeps(b.journal, b.records, k, change, at);
    X.ObserveKeeps(b.records, k, change, at);
    RunOne(steps, Supervised(k, change, at));
  }

  /** The journal's record of an attempt. */
  function AttemptOf(records: seq<A.Attempt>, attemptId: nat): Option<A.Attempt> {
    var i := A.Find(records, attemptId);
    if i < |records| then Some(records[i]) else None
  }

  /** The attempt is external, and the runtime is its own. */
  predicate IsOf(attempt: Option<A.Attempt>, external: X.Record) {
    attempt.Some? && attempt.value.provider == A.External && AttemptKey(attempt.value) == X.KeyOf(external)
  }

  /** What the disk of a failed launch says: nothing, or why it failed and whether to try again. */
  datatype Startup = NotStartup | Startup(diagnostic: Text, notBefore: nat, retryable: bool)

  class ExternalAssignmentAdapter {
    var journal: A.Journal
    var records: seq<X.Record>
    ghost var steps: seq<Step>

    /** Both journals are what the steps so far, those of supervisors included, have written. */
    ghost predicate Valid()
      reads this
    {
      Joint(journal, records) && Run(steps) == Some(Both(journal, records))
    }

    constructor ()
      ensures Valid() && journal == A.Journal([], 0) && records == []
    {
      journal, records, steps := A.Journal([], 0), [], [];
      new;
      A.ReplayKeeps([]);
    }

    method Mutate(token: A.Token, change: A.Change) returns (r: Option<A.Attempt>)
      requires Valid() && MayMutate(records, token, change)
      modifies this`journal, this`steps
      ensures old(steps) <= steps
      ensures Valid()
      ensures r.Some? <==> A.Apply(old(journal), A.Event.Mutate(token, change)).Some?
      ensures r.Some? ==> A.Apply(old(journal), A.Event.Mutate(token, change)) == Some(journal)
      ensures r.Some? ==> r == AttemptOf(journal.records, token.attemptId)
      ensures r.None? ==> journal == old(journal)
    {
      var after := A.Apply(journal, A.Event.Mutate(token, change));
      if after.None? {
        return None;
      }
      MutateKeeps(journal, records, token, change);
      A.MutationShape(journal, token, change);
      FoundAfter(journal, token, change);
      RunOne(steps, Assign(A.Event.Mutate(token, change)));
      steps := steps + [Assign(A.Event.Mutate(token, change))];
      journal := after.value;
      r := Some(journal.records[A.Find(journal.records, token.attemptId)]);
    }

    /** Change the `i`-th attempt, which is alive, in a way that is legal now. */
    method Change(i: nat, change: A.Change)
      requires Valid() && i < |journal.records| && journal.records[i].phase != A.Terminal
      requires A.Changed(journal.records, journal.records[i], change).Some? && !change.Recovery?
               && !change.HealthRecovery?
      requires MayMutate(records, A.TokenOf(journal.records[i]), change)
      modifies this`journal, this`steps
      ensures old(steps) <= steps
      ensures Valid() && |journal.records| == |old(journal.records)|
      ensures journal.records[i] == A.Next(old(journal.records), old(journal.records)[i], change)
    {
      A.LegalChange(journal, i, change);
      var changed := Mutate(A.TokenOf(journal.records[i]), change);
    }

    method Retire(i: nat, evidence: A.StopEvidence)
      requires Valid() && i < |journal.records| && journal.records[i].phase in {A.Active, A.Phase.Stopping}
      requires evidence.runtimeId == journal.records[i].runtimeId && evidence.kind == A.Stopped
      requires Backed(records, AttemptKey(journal.records[i]), evidence)
      modifies this`journal, this`steps
      ensures old(steps) <= steps
      ensures Valid() && |journal.records| == |old(journal.records)| && journal.records[i].phase == A.Terminal
      ensures journal.records[i].attemptId == old(journal.records)[i].attemptId
      ensures journal.records[i].result == old(journal.records)[i].result
              && journal.records[i].stopReason == old(journal.records)[i].stopReason
    {
      RetiredNext(journal.records, journal.records[i], evidence);
      Change(i, A.Retired(evidence));
    }

    method Interrupt(i: nat, evidence: A.StopEvidence)
      requires Valid() && i < |journal.records| && journal.records[i].phase != A.Terminal
      requires A.StopsThis(journal.records[i], evidence) && Backed(records, AttemptKey(journal.records[i]), evidence)
      modifies this`journal, this`steps
      ensures old(steps) <= steps
      ensures Valid() && |journal.records| == |old(journal.records)| && journal.records[i].phase == A.Terminal
      ensures journal.records[i].attemptId == old(journal.records)[i].attemptId
    {
      Change(i, A.Interrupted(evidence, evidence.receipt));
    }

    method FailProvision(i: nat, evidence: A.StopEvidence, diagnostic: Text, notBefore: nat, retryable: bool)
      requires Valid() && i < |journal.records| && journal.records[i].phase in {A.Reserved, A.Active}
      requires journal.records[i].provider == A.External && evidence.kind == A.Stopped
      requires evidence.runtimeId == journal.records[i].runtimeId
      requires Backed(records, AttemptKey(journal.records[i]), evidence)
      modifies this`journal, this`steps
      ensures old(steps) <= steps
      ensures Valid() && |journal.records| == |old(journal.records)| && journal.records[i].phase == A.Terminal
      ensures journal.records[i].attemptId == old(journal.records)[i].attemptId
    {
      Change(i, A.ProvisionFailed(evidence, diagnostic, notBefore, retryable));
    }

    /** Read the runtime after whatever its supervisor recorded meanwhile. */
    method Observe(k: X.Key) returns (r: X.Record)
      requires Valid() && X.RecordAt(records, k).Some?
      modifies this`records, this`steps
      ensures old(steps) <= steps
      ensures Valid() && X.Grows(old(records), records) && X.RecordAt(records, k) == Some(r) && X.RecordOk(r)
    {
      var n: int := *;
      n := if n < 0 then 0 else n;
      X.GrowsAlready(records);
      for i := 0 to n
        invariant Valid() && old(steps) <= steps && X.Grows(old(records), records)
      {
        var change: X.Change, key: X.Key, at: nat := *, *, *;
        ghost var before := records;
        Supervise(key, change, at);
        X.GrowsTwice(old(records), before, records);
      }
      r := X.RecordAt(records, k).value;
    }

    method Supervise(k: X.Key, change: X.Change, at: nat)
      requires Valid()
      modifies this`records, this`steps
      ensures old(steps) <= steps
      ensures Valid() && X.Grows(old(records), records)
    {
      X.GrowsAlready(records);
      var after := X.Reduce(records, X.Observe(k, change, at));
      if after.Some? {
        SupervisedKeeps(steps, Both(journal, records), k, change, at);
        steps := steps + [Supervised(k, change, at)];
        records := after.value;
      }
    }

    /** Bring an attempt up to date with its runtime. A terminal receipt always ends the attempt, and nothing
        else does. */
    method Reconcile(record: A.Attempt, external: X.Record, startup: Startup) returns (r: Option<A.Attempt>)
      requires Valid() && X.RecordOk(external)
      requires X.RecordAt(records, X.KeyOf(external)).Some?
               && X.Later(external, X.RecordAt(records, X.KeyOf(external)).value)
      modifies this`journal, this`steps
      ensures old(steps) <= steps
      ensures Valid()
      ensures r.Some? <==> IsOf(AttemptOf(old(journal.records), record.attemptId), external)
      ensures r.Some? && external.terminal.Some? ==> r.value.phase == A.Terminal
      ensures r.Some? && external.terminal.None? ==>
                (r.value.phase == A.Terminal
                 <==> AttemptOf(old(journal.records), record.attemptId).value.phase == A.Terminal)
      ensures r.Some? && external.phase == X.Completed && external.result.Some?
              && AttemptOf(old(journal.records), record.attemptId).value.phase in {A.Reserved, A.Active} ==>
                && r.value.result.Some?
                && r.value.stopReason == AttemptOf(old(journal.records), record.attemptId).value.stopReason
    {
      var i := A.Find(journal.records, record.attemptId);
      if i == |journal.records| || AttemptKey(journal.records[i]) != X.KeyOf(external)
         || journal.records[i].provider != A.External {
        return None;
      }
      ghost var before := journal.records[i];
      RecordUsage(i, external);
      if journal.records[i].phase == A.Terminal {
        return Some(journal.records[i]);
      }
      if external.phase == X.Running || external.phase == X.Cancelling {
        if journal.records[i].phase == A.Reserved {
          Change(i, A.Activated);
        }
        return Some(journal.records[i]);
      }
      if external.terminal.None? {
        return Some(journal.records[i]);
      }
      EndOn(i, external, startup);
      r := Some(journal.records[i]);
    }

    method RecordUsage(i: nat, external: X.Record)
      requires Valid() && i < |journal.records| && AttemptKey(journal.records[i]) == X.KeyOf(external)
      requires journal.records[i].provider == A.External
      modifies this`journal, this`steps
      ensures old(steps) <= steps
      ensures Valid() && |journal.records| == |old(journal.records)|
      ensures journal.records[i] == old(journal.records)[i].(revision := journal.records[i].revision,
                                                             externalUsage := journal.records[i].externalUsage)
    {
      var current := journal.records[i];
      if (current.phase == A.Reserved || current.phase == A.Active) && external.usage.Some?
         && current.externalUsage.None? {
        Change(i, A.ExternalUsage(A.Usage(current.attemptId, current.generation, external.usage.value.tokens)));
      }
    }

    /** End a live attempt whose runtime has a terminal receipt. */
    method EndOn(i: nat, external: X.Record, startup: Startup)
      requires Valid() && i < |journal.records| && AttemptKey(journal.records[i]) == X.KeyOf(external)
      requires journal.records[i].provider == A.External && journal.records[i].phase != A.Terminal
      requires external.terminal.Some? && X.RecordOk(external)
      requires X.RecordAt(records, X.KeyOf(external)).Some?
               && X.Later(external, X.RecordAt(records, X.KeyOf(external)).value)
      modifies this`journal, this`steps
      ensures old(steps) <= steps
      ensures Valid() && |journal.records| == |old(journal.records)| && journal.records[i].phase == A.Terminal
      ensures journal.records[i].attemptId == old(journal.records)[i].attemptId
      ensures external.phase == X.Completed && external.result.Some?
              && old(journal.records)[i].phase in {A.Reserved, A.Active} ==>
                journal.records[i].result.Some? && journal.records[i].stopReason == old(journal.records)[i].stopReason
    {
      var evidence := A.StopEvidence(journal.records[i].runtimeId, A.Stopped, StopReceipt(external.terminal.value));
      var outcome := external.terminal.value.outcome;
      if journal.records[i].phase != A.Phase.Stopping && outcome == X.OutcomeFailed && !external.turnCompleted
         && startup.Startup? {
        FailProvision(i, evidence, startup.diagnostic, startup.notBefore, startup.retryable);
        return;
      }
      ActivateReserved(i);
      Conclude(i, external, evidence);
    }

    /** The ending of an attempt that is active or already stopping. */
    method Conclude(i: nat, external: X.Record, evidence: A.StopEvidence)
      requires Valid() && i < |journal.records| && journal.records[i].phase in {A.Active, A.Phase.Stopping}
      requires external.terminal.Some? && X.RecordOk(external)
      requires evidence.runtimeId == journal.records[i].runtimeId && evidence.kind == A.Stopped
      requires Backed(records, AttemptKey(journal.records[i]), evidence)
      modifies this`journal, this`steps
      ensures old(steps) <= steps
      ensures Valid() && |journal.records| == |old(journal.records)| && journal.records[i].phase == A.Terminal
      ensures journal.records[i].attemptId == old(journal.records)[i].attemptId
      ensures external.phase == X.Completed && external.result.Some? && old(journal.records)[i].phase == A.Active ==>
                journal.records[i].result.Some? && journal.records[i].stopReason == old(journal.records)[i].stopReason
    {
      var outcome := external.terminal.value.outcome;
      if outcome == X.OutcomeCancelled && external.cancellation.value.reason == SHUTDOWN
         && journal.records[i].phase != A.Phase.Stopping {
        Interrupt(i, evidence);
        return;
      }
      SettleResult(i, if outcome == X.OutcomeCompleted then external.result else None,
                   if outcome == X.OutcomeCancelled then CANCELLED_UNASKED else ENDED_UNREPORTED);
      Retire(i, evidence);
    }

    method ActivateReserved(i: nat)
      requires Valid() && i < |journal.records| && journal.records[i].phase != A.Terminal
      modifies this`journal, this`steps
      ensures old(steps) <= steps
      ensures Valid() && |journal.records| == |old(journal.records)|
      ensures journal.records[i]
           == old(journal.records)[i].(phase := journal.records[i].phase, revision := journal.records[i].revision)
      ensures journal.records[i].phase
           == if old(journal.records)[i].phase == A.Phase.Stopping then A.Phase.Stopping else A.Active
    {
      if journal.records[i].phase == A.Reserved {
        Change(i, A.Activated);
      }
    }

    /** Report what the runtime produced, or record why there is nothing to report. */
    method SettleResult(i: nat, result: Option<Text>, reason: Text)
      requires Valid() && i < |journal.records| && journal.records[i].phase in {A.Active, A.Phase.Stopping}
      modifies this`journal, this`steps
      ensures old(steps) <= steps
      ensures Valid() && |journal.records| == |old(journal.records)|
      ensures journal.records[i]
           == old(journal.records)[i].(phase := journal.records[i].phase, revision := journal.records[i].revision,
                                       result := journal.records[i].result,
                                       stopReason := journal.records[i].stopReason)
      ensures journal.records[i].phase in {A.Active, A.Phase.Stopping}
      ensures old(journal.records)[i].phase == A.Active && result.Some? ==>
                journal.records[i].result.Some? && journal.records[i].stopReason == old(journal.records)[i].stopReason
    {
      if journal.records[i].phase != A.Phase.Stopping {
        if result.None? {
          Change(i, A.Change.Stopping(reason));
        } else if journal.records[i].result.None? {
          Change(i, A.Reported(result.value));
        }
      }
    }

    /** Start a reserved attempt once; the durable intent comes before any effect. */
    method Start(i: nat, intent: Text, at: nat, startup: Startup) returns (r: Option<A.Attempt>)
      requires Valid() && i < |journal.records| && journal.records[i].phase == A.Reserved
               && journal.records[i].provider == A.External
      modifies this
      ensures old(steps) <= steps
      ensures Valid() && X.RecordAt(records, AttemptKey(old(journal.records)[i])).Some?
      ensures X.RecordAt(old(records), AttemptKey(old(journal.records)[i])).None? ==>
                && |old(steps)| < |steps|
                && steps[|old(steps)|] == Launch(AttemptKey(old(journal.records)[i]), intent, at)
    {
      var record := journal.records[i];
      var k := AttemptKey(record);
      if X.RecordAt(records, k).None? {
        LaunchKeeps(journal, records, k, intent, at);
        X.IntentKeeps(records, k, intent, at);
        RunOne(steps, Launch(k, intent, at));
        steps := steps + [Launch(k, intent, at)];
        records := X.Reduce(records, X.Intent(k, intent, at)).value;
      }
      r := ObserveAttempt(record, startup);
    }

    method ObserveAttempt(record: A.Attempt, startup: Startup) returns (r: Option<A.Attempt>)
      requires Valid()
      modifies this
      ensures old(steps) <= steps
      ensures Valid() && X.Grows(old(records), records)
      ensures r.Some? && r.value.phase == A.Terminal
              && AttemptOf(old(journal.records), record.attemptId).Some?
              && AttemptOf(old(journal.records), record.attemptId).value.phase != A.Terminal ==>
                X.RecordAt(records, AttemptKey(record)).Some?
                && X.RecordAt(records, AttemptKey(record)).value.terminal.Some?
    {
      X.GrowsAlready(records);
      if X.RecordAt(records, AttemptKey(record)).None? {
        return None;
      }
      var external := Observe(AttemptKey(record));
      assert X.Later(external, external);
      r := Reconcile(record, external, startup);
    }

    /** Cancel an attempt. Without a launch intent a reserved attempt never started; any other keeps its capacity
        until its runtime proves that it ended. */
    method Cancel(record: A.Attempt, reason: Text, at: nat, startup: Startup) returns (r: Option<A.Attempt>)
      requires Valid()
      modifies this
      ensures old(steps) <= steps
      ensures Valid() && X.Grows(old(records), records)
      ensures X.RecordAt(old(records), AttemptKey(record)).None? && record.phase in {A.Active, A.Phase.Stopping}
              && r.Some? ==>
                r.value.phase != A.Terminal
    {
      X.GrowsAlready(records);
      if record.phase == A.Terminal {
        return Some(record);
      }
      var existing := X.RecordAt(records, AttemptKey(record));
      if existing.None? && record.phase == A.Reserved {
        r := Mutate(A.TokenOf(record),
                    A.Retired(A.StopEvidence(record.runtimeId, A.NeverStarted, "external/no-launch-intent")));
        return;
      }
      var stopping := Some(record);
      if record.phase != A.Phase.Stopping {
        StoppingStaysAlive(journal, A.TokenOf(record), reason);
        stopping := Mutate(A.TokenOf(record), A.Change.Stopping(reason));
      }
      if stopping.None? || existing.None? {
        return stopping;
      }
      if existing.value.terminal.Some? {
        assert X.Later(existing.value, existing.value);
        r := Reconcile(stopping.value, existing.value, startup);
        return;
      }
      r := CancelRuntime(stopping.value, reason, at, startup);
    }

    method CancelRuntime(record: A.Attempt, reason: Text, at: nat, startup: Startup) returns (r: Option<A.Attempt>)
      requires Valid()
      modifies this
      ensures old(steps) <= steps
      ensures Valid() && X.Grows(old(records), records)
    {
      X.GrowsAlready(records);
      var k := AttemptKey(record);
      if X.Reduce(records, X.Observe(k, X.Cancel(reason), at)).None? {
        return None;
      }
      Supervise(k, X.Cancel(reason), at);
      ghost var middle := records;
      r := ObserveAttempt(record, startup);
      X.GrowsTwice(old(records), middle, records);
    }

    /** Interrupt one attempt for a shutdown, polling its runtime until the deadline. It reports success only once
        the attempt is terminal. */
    method InterruptForShutdown(attemptId: nat, at: nat, polls: nat, startup: Startup) returns (interrupted: bool)
      requires Valid()
      modifies this
      ensures old(steps) <= steps
      ensures Valid()
      ensures interrupted && AttemptOf(journal.records, attemptId).Some?
              && AttemptOf(journal.records, attemptId).value.provider == A.External ==>
                AttemptOf(journal.records, attemptId).value.phase == A.Terminal
    {
      var i := A.Find(journal.records, attemptId);
      if i == |journal.records| || journal.records[i].phase == A.Terminal || journal.records[i].provider != A.External {
        return true;
      }
      var k := AttemptKey(journal.records[i]);
      var existing := X.RecordAt(records, k);
      if existing.None? {
        if journal.records[i].phase != A.Reserved {
          return false;
        }
        Interrupt(i,
                  A.StopEvidence(journal.records[i].runtimeId, A.NeverStarted, "external/shutdown-no-launch-intent"));
        interrupted := true;
      } else {
        interrupted := StopRuntime(i, existing.value, at, polls, startup);
      }
      A.Found(journal, i);
    }

    method StopRuntime(i: nat, existing: X.Record, at: nat, polls: nat, startup: Startup) returns (stopped: bool)
      requires Valid() && i < |journal.records| && journal.records[i].phase != A.Terminal
               && journal.records[i].provider == A.External
      requires X.RecordAt(records, AttemptKey(journal.records[i])) == Some(existing)
      modifies this
      ensures old(steps) <= steps
      ensures Valid() && |journal.records| == |old(journal.records)|
      ensures journal.records[i].attemptId == old(journal.records)[i].attemptId
      ensures stopped ==> journal.records[i].phase == A.Terminal
    {
      var k := AttemptKey(journal.records[i]);
      if existing.terminal.None? {
        if X.Reduce(records, X.Observe(k, X.Cancel(SHUTDOWN), at)).None? {
          return false;
        }
        Supervise(k, X.Cancel(SHUTDOWN), at);
      }
      stopped := false;
      for poll := 0 to polls
        invariant Valid() && old(steps) <= steps && journal == old(journal) && X.RecordAt(records, k).Some? && !stopped
      {
        stopped := Poll(i, k, startup);
        if stopped {
          return;
        }
      }
    }

    /** Interrupt a live attempt whose runtime has a terminal receipt. */
    method InterruptOn(i: nat, external: X.Record)
      requires Valid() && i < |journal.records| && AttemptKey(journal.records[i]) == X.KeyOf(external)
      requires journal.records[i].phase != A.Terminal && external.terminal.Some?
      requires X.RecordAt(records, X.KeyOf(external)) == Some(external)
      modifies this`journal, this`steps
      ensures old(steps) <= steps
      ensures Valid() && |journal.records| == |old(journal.records)| && journal.records[i].phase == A.Terminal
      ensures journal.records[i].attemptId == old(journal.records)[i].attemptId
    {
      var evidence := A.StopEvidence(journal.records[i].runtimeId, A.Stopped, StopReceipt(external.terminal.value));
      Interrupt(i, evidence);
    }

    /** One look at a runtime that is being stopped: end the attempt if the runtime has ended. */
    method Poll(i: nat, k: X.Key, startup: Startup) returns (stopped: bool)
      requires Valid() && i < |journal.records| && journal.records[i].phase != A.Terminal
               && journal.records[i].provider == A.External
      requires AttemptKey(journal.records[i]) == k && X.RecordAt(records, k).Some?
      modifies this
      ensures old(steps) <= steps
      ensures Valid() && |journal.records| == |old(journal.records)| && X.RecordAt(records, k).Some?
      ensures !stopped ==> journal == old(journal)
      ensures stopped ==>
                journal.records[i].phase == A.Terminal
                && journal.records[i].attemptId == old(journal.records)[i].attemptId
    {
      var observed := Observe(k);
      if observed.terminal.None? {
        return false;
      }
      LaterItself(observed);
      if observed.terminal.value.outcome == X.OutcomeCompleted && observed.result.Some? {
        RecordUsage(i, observed);
        EndOn(i, observed, startup);
      } else {
        InterruptOn(i, observed);
      }
      stopped := true;
    }
  }

  lemma RetiredNext(records: seq<A.Attempt>, r: A.Attempt, evidence: A.StopEvidence)
    requires A.StopsThis(r, evidence)
    ensures A.Changed(records, r, A.Retired(evidence)).Some?
    ensures A.Next(records, r, A.Retired(evidence))
         == r.(phase := A.Terminal, stopEvidence := Some(evidence), revision := r.revision + 1)
  {
  }

  lemma LaterItself(r: X.Record)
    ensures X.Later(r, r)
  {
  }

  lemma FoundAfter(j: A.Journal, token: A.Token, change: A.Change)
    requires A.Inv(j) && A.Apply(j, A.Event.Mutate(token, change)).Some?
    ensures A.Find(A.Apply(j, A.Event.Mutate(token, change)).value.records, token.attemptId)
         == A.Find(j.records, token.attemptId)
    ensures A.Find(j.records, token.attemptId) < |j.records|
    ensures |A.Apply(j, A.Event.Mutate(token, change)).value.records| == |j.records|
  {
    A.MutationShape(j, token, change);
    var after := A.Apply(j, A.Event.Mutate(token, change)).value.records;
    var i, k := A.Find(j.records, token.attemptId), A.Find(after, token.attemptId);
    assert forall m :: 0 <= m < |after| ==> after[m].attemptId == j.records[m].attemptId;
  }

  lemma StoppingStaysAlive(j: A.Journal, token: A.Token, reason: Text)
    requires A.Inv(j)
    ensures var e := A.Event.Mutate(token, A.Change.Stopping(reason));
            A.Apply(j, e).Some? ==>
              && A.Find(A.Apply(j, e).value.records, token.attemptId) < |j.records|
              && A.Apply(j, e).value.records[A.Find(A.Apply(j, e).value.records, token.attemptId)].phase != A.Terminal
  {
    var e := A.Event.Mutate(token, A.Change.Stopping(reason));
    if A.Apply(j, e).Some? {
      FoundAfter(j, token, A.Change.Stopping(reason));
    }
  }
}
