/** The coordinator's assignment store: capacity is checked at every reservation against the limits then in force. */
module AssignmentStores {
  import opened Wrappers
  import opened Identities
  import opened Assignments

  datatype Limits = Limits(globalCapacity: nat, projectCapacities: map<nat, nat>)

  function Live(records: seq<Attempt>): nat {
    if records == [] then 0
    else Live(records[..|records| - 1]) + (if records[|records| - 1].phase != Terminal then 1 else 0)
  }

  function LiveIn(records: seq<Attempt>, projectId: nat): nat {
    if records == [] then 0
    else var last := records[|records| - 1];
         LiveIn(records[..|records| - 1], projectId)
         + (if last.phase != Terminal && last.work.projectId == projectId then 1 else 0)
  }

  predicate HasCapacity(limits: Limits, records: seq<Attempt>, projectId: nat) {
    && projectId in limits.projectCapacities
    && Live(records) < limits.globalCapacity
    && LiveIn(records, projectId) < limits.projectCapacities[projectId]
  }

  // ----- Counting live attempts -----

  lemma {:induction false} LiveReplaced(records: seq<Attempt>, i: nat, next: Attempt, projectId: nat)
    requires i < |records| && next.work == records[i].work && records[i].phase != Terminal
    ensures Live(records[i := next]) == Live(records) - (if next.phase == Terminal then 1 else 0)
    ensures LiveIn(records[i := next], projectId)
         == LiveIn(records, projectId)
            - (if next.phase == Terminal && next.work.projectId == projectId then 1 else 0)
  {
    var n := |records| - 1;
    if i < n {
      LiveReplaced(records[..n], i, next, projectId);
      assert records[i := next][..n] == records[..n][i := next];
    } else {
      assert records[i := next][..n] == records[..n];
    }
  }

  lemma ApplyLive(j: Journal, e: Event, projectId: nat)
    requires Apply(j, e).Some?
    ensures var after := Apply(j, e).value.records;
      if e.Reserve?
      then Live(after) == Live(j.records) + 1
           && LiveIn(after, projectId)
              == LiveIn(j.records, projectId) + (if e.request.work.projectId == projectId then 1 else 0)
      else Live(after) <= Live(j.records) && LiveIn(after, projectId) <= LiveIn(j.records, projectId)
  {
    var after := Apply(j, e).value.records;
    match e
    case Reserve(request) =>
      assert after[..|after| - 1] == j.records;
    case Mutate(token, change) =>
      MutationShape(j, token, change);
      if after != j.records {
        LiveReplaced(j.records, Find(j.records, token.attemptId), after[Find(j.records, token.attemptId)], projectId);
      }
  }

  // ----- Whole histories -----

  /** Each reservation of the history found room under the limits in force at that moment. */
  ghost predicate Admitted(log: seq<Event>, inForce: seq<Limits>) {
    && Replay(log).Some? && |inForce| == |log|
    && forall n :: 0 <= n < |log| && log[n].Reserve? ==>
         HasCapacity(inForce[n], At(log, n).records, log[n].request.work.projectId)
  }

  /** Live attempts never exceed the largest limits ever in force; under constant limits, never those limits. */
  lemma {:induction false} LiveWithinLimits(log: seq<Event>, inForce: seq<Limits>, n: nat, ceiling: Limits,
          projectId: nat)
    requires Admitted(log, inForce) && n <= |log| && projectId in ceiling.projectCapacities
    requires forall k :: 0 <= k < |inForce| ==> inForce[k].globalCapacity <= ceiling.globalCapacity
    requires forall k :: 0 <= k < |inForce| && projectId in inForce[k].projectCapacities ==>
               inForce[k].projectCapacities[projectId] <= ceiling.projectCapacities[projectId]
    ensures Live(At(log, n).records) <= ceiling.globalCapacity
    ensures LiveIn(At(log, n).records, projectId) <= ceiling.projectCapacities[projectId]
  {
    if n > 0 {
      LiveWithinLimits(log, inForce, n - 1, ceiling, projectId);
      AtStep(log, n - 1);
      ApplyLive(At(log, n - 1), log[n - 1], projectId);
    }
  }

  class AssignmentStore {
    var journal: Journal
    var limits: Limits
    ghost var log: seq<Event>
    ghost var inForce: seq<Limits>

    ghost predicate Valid()
      reads this
    {
      Admitted(log, inForce) && Replay(log) == Some(journal)
    }

    constructor (limits: Limits)
      ensures Valid() && this.limits == limits && log == []
    {
      this.journal := Journal([], 0);
      this.limits := limits;
      this.log, this.inForce := [], [];
    }

    /** New limits never release an existing reservation. */
    method Configure(next: Limits)
      requires Valid()
      modifies this`limits
      ensures Valid() && limits == next
    {
      limits := next;
    }

    /** Append an event that the reducer accepts. */
    method Append(e: Event) returns (ok: bool)
      requires Valid()
      requires e.Reserve? ==> HasCapacity(limits, journal.records, e.request.work.projectId)
      modifies this`journal, this`log, this`inForce
      ensures Valid()
      ensures ok == Apply(old(journal), e).Some?
      ensures ok ==> Apply(old(journal), e) == Some(journal)
      ensures ok ==> log == old(log) + [e] && inForce == old(inForce) + [limits]
      ensures !ok ==> journal == old(journal) && log == old(log) && inForce == old(inForce)
    {
      var next := Apply(journal, e);
      ok := next.Some?;
      if ok {
        AppendAdmitted(log, inForce, e, limits);
        log, inForce := log + [e], inForce + [limits];
        journal := next.value;
      }
    }

    /** Reserve only inside the limits in force; a refusal changes nothing. */
    method Reserve(request: Request) returns (record: Option<Attempt>)
      requires Valid()
      modifies this`journal, this`log, this`inForce
      ensures Valid()
      ensures record.Some? <==> HasCapacity(limits, old(journal).records, request.work.projectId)
                                && Reserving(old(journal), request).Some?
      ensures record.Some? ==> record == Reserving(old(journal), request)
                               && journal == Journal(old(journal).records + [record.value], old(journal).sequence + 1)
      ensures record.None? ==> journal == old(journal)
    {
      record := None;
      if HasCapacity(limits, journal.records, request.work.projectId) {
        ReserveApplied(journal, request);
        var ok := Append(Event.Reserve(request));
        if ok {
          record := Some(journal.records[|journal.records| - 1]);
        }
      }
    }

    method Mutate(token: Token, change: Change) returns (record: Option<Attempt>)
      requires Valid()
      modifies this`journal, this`log, this`inForce
      ensures Valid()
      ensures record.Some? <==> Reduce(old(journal), Event.Mutate(token, change)).Some?
      ensures record.Some? ==> Apply(old(journal), Event.Mutate(token, change)) == Some(journal)
      ensures record.Some? ==> && Find(journal.records, token.attemptId) < |journal.records|
                               && record.value == journal.records[Find(journal.records, token.attemptId)]
      ensures record.None? ==> journal == old(journal)
    {
      record := None;
      var ok := Append(Event.Mutate(token, change));
      if ok {
        MutationShape(old(journal), token, change);
        record := Some(journal.records[Find(journal.records, token.attemptId)]);
      }
    }
  }

  lemma ReserveApplied(j: Journal, request: Request)
    ensures Apply(j, Event.Reserve(request))
         == if Reserving(j, request).None? then None
            else Some(Journal(j.records + [Reserving(j, request).value], j.sequence + 1))
  {
  }

  lemma AppendAdmitted(log: seq<Event>, inForce: seq<Limits>, e: Event, limits: Limits)
    requires Admitted(log, inForce) && Apply(Replay(log).value, e).Some?
    requires e.Reserve? ==> HasCapacity(limits, Replay(log).value.records, e.request.work.projectId)
    ensures Admitted(log + [e], inForce + [limits])
    ensures Replay(log + [e]) == Apply(Replay(log).value, e)
  {
    var next := log + [e];
    assert next[..|next| - 1] == log;
    forall n | 0 <= n < |next| && next[n].Reserve?
      ensures HasCapacity((inForce + [limits])[n], At(next, n).records, next[n].request.work.projectId)
    {
      assert next[..n] == log[..n];
      if n == |log| {
        assert log[..n] == log;
      }
    }
  }
}
