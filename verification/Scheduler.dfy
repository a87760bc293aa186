/** The dispatch loop of one coordinator scan: select, reserve, start, until nothing ready is left. */
module Schedulers {
  import opened Wrappers
  import opened Identities
  import opened Assignments
  import opened AssignmentStores
  import opened DispatchQueues
  import Lineage

  function Orders(requests: seq<DispatchRequest>): set<nat> {
    set c | c in requests :: c.order
  }

  /** Everything outside the stores that one pass of the loop reads: clock, status, identities, outcomes. */
  datatype Environment = Environment(
    clock: nat -> nat, ready: (nat, DispatchRequest) -> bool, draw: nat -> Lineage.Draw,
    failed: nat -> Option<Lineage.FailedJob>, leadAvailable: nat -> bool)

  function Max(a: nat, b: nat): nat { if a < b then b else a }

  ghost predicate NoMoreLive(before: seq<Attempt>, after: seq<Attempt>) {
    Live(after) <= Live(before) && forall projectId: nat :: LiveIn(after, projectId) <= LiveIn(before, projectId)
  }

  /** Live attempts, in all and in every project, stay within capacity, or below what there was; a project without
      a configured capacity gains none. */
  ghost predicate WithinCapacity(limits: Limits, before: seq<Attempt>, after: seq<Attempt>) {
    && Live(after) <= Max(Live(before), limits.globalCapacity)
    && forall projectId: nat ::
         LiveIn(after, projectId) <= Max(LiveIn(before, projectId), CapacityOf(limits, projectId))
  }

  function CapacityOf(limits: Limits, projectId: nat): nat {
    if projectId in limits.projectCapacities then limits.projectCapacities[projectId] else 0
  }

  lemma ReservedWithin(limits: Limits, before: seq<Attempt>, r: Attempt)
    requires HasCapacity(limits, before, r.work.projectId)
    ensures WithinCapacity(limits, before, before + [r])
  {
    assert (before + [r])[..|before|] == before;
  }

  lemma WithinTwice(limits: Limits, first: seq<Attempt>, middle: seq<Attempt>, last: seq<Attempt>)
    requires WithinCapacity(limits, first, middle) && WithinCapacity(limits, middle, last)
    ensures WithinCapacity(limits, first, last)
  {
    forall projectId: nat
      ensures LiveIn(last, projectId) <= Max(LiveIn(first, projectId), CapacityOf(limits, projectId))
    {
      assert LiveIn(middle, projectId) <= Max(LiveIn(first, projectId), CapacityOf(limits, projectId));
    }
  }

  class Scheduler {
    const queue: DispatchQueue
    const store: AssignmentStore
    const maxConcurrent: nat
    const interval: nat
    const config: Lineage.Config

    constructor (queue: DispatchQueue, store: AssignmentStore, maxConcurrent: nat, interval: nat,
            config: Lineage.Config)
      ensures this.queue == queue && this.store == store && this.maxConcurrent == maxConcurrent
    {
      this.queue, this.store, this.maxConcurrent := queue, store, maxConcurrent;
      this.interval, this.config := interval, config;
    }

    /** Reserve one selected request through the scheduler's guard; release it when its lead cannot be reached. */
    method Admit(work: Work, turn: nat, env: Environment)
      requires store.Valid()
      modifies store
      ensures store.Valid() && store.limits == old(store.limits)
      ensures WithinCapacity(store.limits, old(store.journal.records), store.journal.records)
    {
      ghost var before := store.journal.records;
      var request := Lineage.Dispatch(work, Prior(store.journal.records, work), env.failed(turn), config,
                                      env.draw(turn));
      if request.None? {
        return;
      }
      var record := store.Reserve(request.value);
      if record.Some? {
        ReservedWithin(store.limits, before, record.value);
        if !env.leadAvailable(turn) {
          Release(record.value);
        }
      }
    }

    /** Give back a reservation that never started. */
    method Release(record: Attempt)
      requires store.Valid()
      modifies store
      ensures store.Valid() && store.limits == old(store.limits)
      ensures NoMoreLive(old(store.journal.records), store.journal.records)
    {
      var token := TokenOf(record);
      var change := Retired(StopEvidence(record.runtimeId, NeverStarted, ""));
      ghost var before := store.journal;
      var retired := store.Mutate(token, change);
      if retired.Some? {
        forall projectId: nat
          ensures LiveIn(store.journal.records, projectId) <= LiveIn(before.records, projectId)
        {
          ApplyLive(before, Mutate(token, change), projectId);
        }
        ApplyLive(before, Mutate(token, change), record.work.projectId);
      }
    }

    /** The loop ends, and offers each queued request to the store at most once. */
    method DispatchLoop(env: Environment) returns (attempted: seq<nat>)
      requires store.Valid()
      modifies store, queue
      ensures store.Valid() && queue.q.requests == old(queue.q.requests)
      ensures forall i, j :: 0 <= i < j < |attempted| ==> attempted[i] != attempted[j]
      ensures forall order :: order in attempted ==> order in Orders(queue.q.requests)
      ensures WithinCapacity(old(store.limits), old(store.journal.records), store.journal.records)
    {
      attempted := [];
      ghost var orders := Orders(queue.q.requests);
      ghost var tried: set<nat> := {};
      while Live(store.journal.records) < maxConcurrent
        invariant store.Valid() && store.limits == old(store.limits)
        invariant queue.q.requests == old(queue.q.requests)
        invariant OfferedOnce(attempted, tried) && tried <= orders
        invariant WithinCapacity(store.limits, old(store.journal.records), store.journal.records)
        decreases orders - tried
      {
        var turn, skip := |attempted|, attempted;
        var ready := env.ready;
        var eligible := (r: DispatchRequest) => r.order !in skip && ready(turn, r);
        var chosen := queue.Select(eligible, env.clock(turn), interval);
        if chosen.None? {
          return;
        }
        assert chosen.value.order in orders && chosen.value.order !in tried;
        OfferedNext(attempted, tried, chosen.value.order);
        attempted := attempted + [chosen.value.order];
        tried := tried + {chosen.value.order};
        ghost var middle := store.journal.records;
        Admit(chosen.value.work, turn, env);
        WithinTwice(store.limits, old(store.journal.records), middle, store.journal.records);
      }
    }
  }

  ghost predicate OfferedOnce(attempted: seq<nat>, tried: set<nat>) {
    && (forall i, j :: 0 <= i < j < |attempted| ==> attempted[i] != attempted[j])
    && (forall order :: order in attempted <==> order in tried)
  }

  lemma OfferedNext(attempted: seq<nat>, tried: set<nat>, order: nat)
    requires OfferedOnce(attempted, tried) && order !in tried
    ensures OfferedOnce(attempted + [order], tried + {order})
  {
  }
}
