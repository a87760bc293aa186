/** Runtimes that an external provider owns: what their journal admits, and what its records prove. */
module ExternalRuntimes {
  import opened Wrappers
  import opened Identities
  import opened Keyed

  const OUTPUT_LIMIT := 1_000_000

  type Key = (nat, nat)

  datatype Process = Process(pid: nat, birthId: Text)

  datatype Exit = Exit(code: Option<nat>, signal: Option<Text>)

  datatype Receipt = Receipt(receiptId: Text, process: Process)

  datatype Usage = Usage(tokens: nat)

  datatype Cancellation = Cancellation(reason: Text, requestedAt: nat)

  datatype Outcome = OutcomeCompleted | OutcomeFailed | OutcomeCancelled

  datatype Terminal = Terminal(outcome: Outcome, exit: Exit, receipt: Receipt, observedAt: nat)

  datatype Phase = LaunchIntent | Running | Cancelling | Cancelled | Completed | Failed | Uncertain

  /** `intent` stands for the immutable launch inputs. */
  datatype Record = Record(
    attemptId: nat,
    generation: nat,
    intent: Text,
    phase: Phase,
    revision: nat,
    lastObservedAt: nat,
    acceptedOutputs: nat,
    fencedOutputs: nat,
    retainsCapacity: bool,
    process: Option<Process>,
    supervisor: Option<Process>,
    processExit: Option<Exit>,
    cancellation: Option<Cancellation>,
    threadId: Option<Text>,
    result: Option<Text>,
    turnCompleted: bool,
    terminal: Option<Terminal>,
    uncertainty: Option<Text>,
    usage: Option<Usage>)
  {
    predicate Fenced() {
      cancellation.Some? || terminal.Some? || phase == Uncertain
    }
  }

  datatype Change =
    | Started(process: Process, supervisor: Option<Process>)
    | Output
    | Thread(threadId: Text)
    | Result(text: Text)
    | TurnCompleted
    | Used(usage: Usage)
    | Reconciled(process: Process)
    | Cancel(reason: Text)
    | Exited(exit: Exit)
    | GroupStopped(receipt: Receipt, turnCompleted: bool)
    | MarkUncertain(reason: Text)

  datatype Event = Intent(key: Key, intent: Text, at: nat) | Observe(key: Key, change: Change, at: nat)

  function KeyOf(r: Record): Key {
    (r.attemptId, r.generation)
  }

  function RecordAt(records: seq<Record>, k: Key): Option<Record> {
    var i := Find(records, KeyOf, k);
    if i < |records| then Some(records[i]) else None
  }

  // ----- One change of one record -----

  /** The evidence of a turn that finished: both sides saw it end, and the process ended cleanly. */
  predicate FinishedCleanly(r: Record, turnCompleted: bool) {
    && turnCompleted && r.turnCompleted && r.threadId.Some? && r.result.Some?
    && r.processExit == Some(Exit(Some(0), None))
  }

  function OutcomeOf(r: Record, turnCompleted: bool): Outcome {
    if r.cancellation.Some? then OutcomeCancelled
    else if FinishedCleanly(r, turnCompleted) then OutcomeCompleted
    else OutcomeFailed
  }

  function PhaseOf(o: Outcome): Phase {
    match o
    case OutcomeCompleted => Completed
    case OutcomeFailed => Failed
    case OutcomeCancelled => Cancelled
  }

  /** The changed record before its revision and time are raised; `None` when the change is refused, the same
      record when it is an exact replay. */
  function Changed(r: Record, change: Change, at: nat): Option<Record> {
    match change
    case Started(process, supervisor) =>
      if (r.phase != LaunchIntent && r.phase != Cancelling && !(r.phase == Uncertain && r.process.None?))
         || r.process.Some? then None
      else Some(r.(phase := if r.cancellation.Some? then Cancelling else Running, process := Some(process),
                   supervisor := if supervisor.Some? then supervisor else r.supervisor, uncertainty := None))
    case Output =>
      if r.Fenced() then
        if r.fencedOutputs >= OUTPUT_LIMIT then None else Some(r.(fencedOutputs := r.fencedOutputs + 1))
      else if r.acceptedOutputs >= OUTPUT_LIMIT then None else Some(r.(acceptedOutputs := r.acceptedOutputs + 1))
    case Thread(threadId) =>
      if r.Fenced() || (r.threadId.Some? && r.threadId != Some(threadId)) then None
      else Some(r.(threadId := Some(threadId)))
    case Result(text) => if r.Fenced() then None else Some(r.(result := Some(text)))
    case TurnCompleted => if r.Fenced() then None else Some(r.(turnCompleted := true))
    case Used(usage) =>
      if r.Fenced() || !r.turnCompleted || (r.usage.Some? && r.usage != Some(usage)) then None
      else Some(r.(usage := Some(usage)))
    case Reconciled(process) =>
      if r.phase != Uncertain || r.process != Some(process) then None
      else Some(r.(phase := if r.cancellation.Some? then Cancelling else Running, uncertainty := None))
    case Cancel(reason) =>
      if r.cancellation.Some? then
        if r.cancellation.value.reason == reason then Some(r) else None
      else if r.terminal.Some? || r.phase == Uncertain then None
      else Some(r.(phase := Cancelling, cancellation := Some(Cancellation(reason, at)), retainsCapacity := true))
    case Exited(exit) =>
      if r.terminal.Some? || r.process.None? || (r.processExit.Some? && r.processExit != Some(exit)) then None
      else Some(r.(processExit := Some(exit), retainsCapacity := true))
    case GroupStopped(receipt, turnCompleted) =>
      if r.processExit.None? || r.process != Some(receipt.process) then None
      else if r.terminal.Some? then
        if r.terminal.value.receipt == receipt && r.turnCompleted && turnCompleted then Some(r) else None
      else
        var outcome := OutcomeOf(r, turnCompleted);
        Some(r.(phase := PhaseOf(outcome), retainsCapacity := false,
                terminal := Some(Terminal(outcome, r.processExit.value, receipt, at))))
    case MarkUncertain(reason) =>
      if r.terminal.Some? then None
      else Some(r.(phase := Uncertain, retainsCapacity := true, uncertainty := Some(reason)))
  }

  /** A record only counts as rewritten when the change is not an exact replay. */
  predicate Rewrites(r: Record, change: Change, next: Record) {
    next != r || change.MarkUncertain?
  }

  function Reduce(records: seq<Record>, e: Event): Option<seq<Record>> {
    match e
    case Intent(k, intent, at) =>
      (match RecordAt(records, k)
       case Some(prior) => if prior.intent == intent then Some(records) else None
       case None =>
         Some(records + [Record(k.0, k.1, intent, LaunchIntent, 1, at, 0, 0, true,
                                None, None, None, None, None, None, false, None, None, None)]))
    case Observe(k, change, at) =>
      (match RecordAt(records, k)
       case None => None
       case Some(prior) =>
         if at < prior.lastObservedAt then None else
         match Changed(prior, change, at)
         case None => None
         case Some(next) =>
           if !Rewrites(prior, change, next) then Some(records)
           else Some(Put(records, KeyOf, next.(revision := prior.revision + 1, lastObservedAt := at))))
  }

  // ----- What every record proves -----

  predicate RecordOk(r: Record) {
    && (r.retainsCapacity <==> r.terminal.None?)
    && (r.terminal.None? <==>
        r.phase == LaunchIntent || r.phase == Running || r.phase == Cancelling || r.phase == Uncertain)
    && (r.terminal.Some? ==>
          && r.phase == PhaseOf(r.terminal.value.outcome) && r.processExit == Some(r.terminal.value.exit)
          && r.process == Some(r.terminal.value.receipt.process)
          && (r.terminal.value.outcome == OutcomeCancelled <==> r.cancellation.Some?)
          && (r.terminal.value.outcome == OutcomeCompleted ==> FinishedCleanly(r, true)))
    && (r.phase == Running ==> r.process.Some? && r.cancellation.None?)
    && (r.phase == Cancelling ==> r.cancellation.Some?)
    && (r.cancellation.Some? ==> r.phase == Cancelling || r.phase == Uncertain || r.phase == Cancelled)
    && (r.phase == Uncertain ==> r.uncertainty.Some?)
    && (r.processExit.Some? ==> r.process.Some?)
    && (r.usage.Some? ==> r.turnCompleted)
  }

  /** What one record keeps however its history goes on. */
  predicate Later(a: Record, b: Record) {
    && KeyOf(a) == KeyOf(b) && a.intent == b.intent
    && a.revision <= b.revision && a.lastObservedAt <= b.lastObservedAt
    && (a.process.Some? ==> b.process == a.process) && (a.processExit.Some? ==> b.processExit == a.processExit)
    && (a.cancellation.Some? ==> b.cancellation == a.cancellation) && (a.usage.Some? ==> b.usage == a.usage)
    && (a.threadId.Some? ==> b.threadId == a.threadId) && (a.turnCompleted ==> b.turnCompleted)
    && (a.cancellation.Some? || a.terminal.Some? ==>
          b.result == a.result && b.threadId == a.threadId && b.turnCompleted == a.turnCompleted && b.usage == a.usage)
    && (a.terminal.Some? ==>
          b == a.(revision := b.revision, lastObservedAt := b.lastObservedAt, fencedOutputs := b.fencedOutputs))
  }

  lemma ChangedOk(r: Record, change: Change, at: nat)
    requires RecordOk(r) && Changed(r, change, at).Some? && r.lastObservedAt <= at
    ensures var next := Changed(r, change, at).value.(revision := r.revision + 1, lastObservedAt := at);
            RecordOk(next) && Later(r, next)
  {
  }

  /** A stopped group completes a runtime exactly on clean, uncancelled evidence from both sides. */
  lemma CompletedIff(r: Record, receipt: Receipt, turnCompleted: bool, at: nat)
    requires RecordOk(r) && r.terminal.None? && Changed(r, GroupStopped(receipt, turnCompleted), at).Some?
    ensures var next := Changed(r, GroupStopped(receipt, turnCompleted), at).value;
            && !next.retainsCapacity && next.terminal.Some?
            && (next.phase == Completed <==> r.cancellation.None? && FinishedCleanly(r, turnCompleted))
            && (next.phase == Cancelled <==> r.cancellation.Some?)
  {
  }

  /** Acknowledging the same stop twice is accepted exactly for a turn that was seen to complete. */
  lemma RepeatedStop(r: Record, receipt: Receipt, turnCompleted: bool, at: nat, again: nat)
    requires RecordOk(r) && r.terminal.None? && Changed(r, GroupStopped(receipt, turnCompleted), at).Some?
    ensures var next := Changed(r, GroupStopped(receipt, turnCompleted), at).value;
            Changed(next, GroupStopped(receipt, turnCompleted), again).Some? <==> r.turnCompleted && turnCompleted
  {
  }

  predicate Inv(records: seq<Record>) {
    Unique(records, KeyOf) && forall i :: 0 <= i < |records| ==> RecordOk(records[i])
  }

  ghost predicate Grows(before: seq<Record>, after: seq<Record>) {
    forall k :: RecordAt(before, k).Some? ==>
      RecordAt(after, k).Some? && Later(RecordAt(before, k).value, RecordAt(after, k).value)
  }

  lemma GrowsTwice(a: seq<Record>, b: seq<Record>, c: seq<Record>)
    requires Grows(a, b) && Grows(b, c)
    ensures Grows(a, c)
  {
    forall k | RecordAt(a, k).Some? ensures RecordAt(c, k).Some? && Later(RecordAt(a, k).value, RecordAt(c, k).value) {
      assert Later(RecordAt(a, k).value, RecordAt(b, k).value) && Later(RecordAt(b, k).value, RecordAt(c, k).value);
    }
  }

  lemma GrowsAlready(records: seq<Record>)
    ensures Grows(records, records)
  {
    forall k | RecordAt(records, k).Some? ensures Later(RecordAt(records, k).value, RecordAt(records, k).value) {
    }
  }

  lemma PutKeeps(records: seq<Record>, prior: Record, next: Record)
    requires Inv(records) && RecordAt(records, KeyOf(next)) == Some(prior) && RecordOk(next) && Later(prior, next)
    ensures Inv(Put(records, KeyOf, next)) && Grows(records, Put(records, KeyOf, next))
    ensures forall k :: RecordAt(Put(records, KeyOf, next), k) == if k == KeyOf(next) then Some(next)
                                                                  else RecordAt(records, k)
  {
    var after := Put(records, KeyOf, next);
    PutUnique(records, KeyOf, next);
    forall k ensures RecordAt(after, k) == if k == KeyOf(next) then Some(next) else RecordAt(records, k) {
      FindSameKeys(records, after, KeyOf, k);
    }
    forall k | RecordAt(records, k).Some?
      ensures RecordAt(after, k).Some? && Later(RecordAt(records, k).value, RecordAt(after, k).value)
    {
      if k != KeyOf(next) {
        assert Later(RecordAt(records, k).value, RecordAt(records, k).value);
      }
    }
  }

  lemma IntentKeeps(records: seq<Record>, k: Key, intent: Text, at: nat)
    requires Inv(records) && Reduce(records, Intent(k, intent, at)).Some?
    ensures var after := Reduce(records, Intent(k, intent, at)).value;
            && Inv(after) && Grows(records, after) && RecordAt(after, k).Some?
            && forall other :: other != k ==> RecordAt(after, other) == RecordAt(records, other)
  {
    GrowsAlready(records);
    var after := Reduce(records, Intent(k, intent, at)).value;
    if RecordAt(records, k).None? {
      forall other
        ensures RecordAt(after, other) == if other == k then Some(after[|records|]) else RecordAt(records, other)
      {
        FindAppend(records, KeyOf, after[|records|], other);
      }
      forall other | RecordAt(records, other).Some?
        ensures Later(RecordAt(records, other).value, RecordAt(after, other).value)
      {
      }
    }
  }

  lemma ObserveReduced(records: seq<Record>, k: Key, change: Change, at: nat)
    requires Reduce(records, Observe(k, change, at)).Some?
    ensures RecordAt(records, k).Some? && Changed(RecordAt(records, k).value, change, at).Some?
    ensures RecordAt(records, k).value.lastObservedAt <= at
    ensures var prior := RecordAt(records, k).value; var next := Changed(prior, change, at).value;
      Reduce(records, Observe(k, change, at)).value
      == if Rewrites(prior, change, next)
         then Put(records, KeyOf, next.(revision := prior.revision + 1, lastObservedAt := at)) else records
  {
  }

  lemma ObserveKeeps(records: seq<Record>, k: Key, change: Change, at: nat)
    requires Inv(records) && Reduce(records, Observe(k, change, at)).Some?
    ensures var after := Reduce(records, Observe(k, change, at)).value;
            && Inv(after) && Grows(records, after)
            && forall other :: RecordAt(after, other).Some? <==> RecordAt(records, other).Some?
  {
    GrowsAlready(records);
    ObserveReduced(records, k, change, at);
    var prior := RecordAt(records, k).value;
    var next := Changed(prior, change, at).value;
    if Rewrites(prior, change, next) {
      ChangedOk(prior, change, at);
      PutKeeps(records, prior, next.(revision := prior.revision + 1, lastObservedAt := at));
    }
  }

  function Replay(log: seq<Event>): Option<seq<Record>> {
    if log == [] then Some([]) else
    match Replay(log[..|log| - 1])
    case None => None
    case Some(records) => Reduce(records, log[|log| - 1])
  }

  /** A runtime keeps its capacity exactly while it has no terminal receipt, and a completed one proves it. */
  lemma {:induction false} ReplayKeeps(log: seq<Event>)
    requires Replay(log).Some?
    ensures Inv(Replay(log).value)
  {
    if log != [] {
      ReplayKeeps(log[..|log| - 1]);
      var records := Replay(log[..|log| - 1]).value;
      match log[|log| - 1] {
        case Intent(k, intent, at) => IntentKeeps(records, k, intent, at);
        case Observe(k, change, at) => ObserveKeeps(records, k, change, at);
      }
    }
  }

  /** Identities, receipts and fences hold for ever: a cancelled runtime never gains a result, and what ended
      stays ended as it ended. */
  lemma {:induction false} ReplayGrows(past: seq<Event>, more: seq<Event>)
    requires Replay(past + more).Some?
    ensures Replay(past).Some? && Grows(Replay(past).value, Replay(past + more).value)
    decreases |more|
  {
    var all := past + more;
    if more == [] {
      assert all == past;
      GrowsAlready(Replay(past).value);
    } else {
      var before := all[..|all| - 1];
      assert before == past + more[..|more| - 1];
      ReplayGrows(past, more[..|more| - 1]);
      ReplayKeeps(before);
      match all[|all| - 1] {
        case Intent(k, intent, at) => IntentKeeps(Replay(before).value, k, intent, at);
        case Observe(k, change, at) => ObserveKeeps(Replay(before).value, k, change, at);
      }
      GrowsTwice(Replay(past).value, Replay(before).value, Replay(all).value);
    }
  }
}
