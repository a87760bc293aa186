/** What holds over whole runs of the workspace batches, and the store that writes them. */
module WorkspaceBatchRuns {
  import opened Wrappers
  import opened Identities
  import opened Keyed
  import opened Digraphs
  import opened WorkspaceBatches

  /** The state a log leads to, unless one of its events is refused. */
  ghost function Run(log: seq<Event>): Option<State> {
    if log == [] then Some(EMPTY) else
    match Run(log[..|log| - 1])
    case None => None
    case Some(s) =>
      match Apply(s, log[|log| - 1])
      case Err(_) => None
      case Ok(t) => Some(t)
  }

  predicate AllWritten(log: seq<Event>) {
    forall e :: e in log ==> Written(e)
  }

  lemma EmptyKeeps()
    ensures Inv(EMPTY)
  {
    FinishedAcyclic(Requirements(AllItems([])), []);
  }

  /** The inbox is never stale: phases, epochs and notices agree in every reachable state. */
  lemma {:induction false} RunKeeps(log: seq<Event>)
    requires AllWritten(log) && Run(log).Some?
    ensures Inv(Run(log).value)
  {
    if log == [] {
      EmptyKeeps();
    } else {
      RunKeeps(log[..|log| - 1]);
      ApplyKeeps(Run(log[..|log| - 1]).value, log[|log| - 1]);
    }
  }

  // ----- Nothing goes back -----

  /** An item observed later: its revision never falls, and one revision never shows two states. */
  predicate ItemAdvances(a: Item, b: Item) {
    && a.ref == b.ref && a.dependsOn == b.dependsOn && AtMost(a.revision, b.revision)
    && (a.revision == b.revision ==> a == b)
  }

  predicate Advances(a: Batch, b: Batch) {
    && a.id == b.id && |a.items| == |b.items|
    && (forall i :: 0 <= i < |a.items| ==> ItemAdvances(a.items[i], b.items[i]))
    && a.epoch <= b.epoch && a.history <= b.history && a.subscriptions <= b.subscriptions
  }

  /** A notice keeps what it says, is delivered at most once, and once delivered or withdrawn stays so. */
  predicate NoticeStays(a: Notice, b: Notice) {
    && NoticeKey(a) == NoticeKey(b) && a.destination == b.destination
    && (!a.Pending() ==> a == b)
  }

  ghost predicate Grows(s: State, t: State) {
    && (forall id :: BatchAt(s, id).Some? ==>
          BatchAt(t, id).Some? && Advances(BatchAt(s, id).value, BatchAt(t, id).value))
    && |s.notices| <= |t.notices|
    && (forall i :: 0 <= i < |s.notices| ==> NoticeStays(s.notices[i], t.notices[i]))
  }

  lemma AdvancesTwice(a: Batch, b: Batch, c: Batch)
    requires Advances(a, b) && Advances(b, c)
    ensures Advances(a, c)
  {
    forall i | 0 <= i < |a.items| ensures ItemAdvances(a.items[i], c.items[i]) {
      assert ItemAdvances(a.items[i], b.items[i]) && ItemAdvances(b.items[i], c.items[i]);
    }
  }

  lemma GrowsTwice(s: State, t: State, u: State)
    requires Grows(s, t) && Grows(t, u)
    ensures Grows(s, u)
  {
    forall id | BatchAt(s, id).Some?
      ensures BatchAt(u, id).Some? && Advances(BatchAt(s, id).value, BatchAt(u, id).value)
    {
      AdvancesTwice(BatchAt(s, id).value, BatchAt(t, id).value, BatchAt(u, id).value);
    }
    forall i | 0 <= i < |s.notices| ensures NoticeStays(s.notices[i], u.notices[i]) {
      assert NoticeStays(s.notices[i], t.notices[i]) && NoticeStays(t.notices[i], u.notices[i]);
    }
  }

  lemma PutGrows(s: State, prior: Batch, next: Batch, notices: seq<Notice>)
    requires Unique(s.batches, BatchId) && BatchAt(s, next.id) == Some(prior) && Advances(prior, next)
    requires |s.notices| <= |notices| && forall i :: 0 <= i < |s.notices| ==> NoticeStays(s.notices[i], notices[i])
    ensures Grows(s, State(Put(s.batches, BatchId, next), notices))
  {
    forall id | BatchAt(s, id).Some?
      ensures BatchAt(State(Put(s.batches, BatchId, next), notices), id).Some?
      ensures Advances(BatchAt(s, id).value, BatchAt(State(Put(s.batches, BatchId, next), notices), id).value)
    {
      BatchAtPut(s.batches, next, id, notices, s.notices);
    }
  }

  lemma ObservedAdvances(b: Batch, observations: seq<Observation>, at: nat)
    requires ObserveItems(b.items, observations, at).Ok?
    ensures Advances(b, Progressed(b, ObserveItems(b.items, observations, at).value, at))
  {
    var items := ObserveItems(b.items, observations, at).value;
    forall i | 0 <= i < |items| ensures ItemAdvances(b.items[i], items[i]) {
      ItemMovesOn(b.items[i], Observed(observations, b.items[i].ref), at);
    }
  }

  lemma ItemMovesOn(item: Item, o: Option<Observation>, at: nat)
    requires ObserveItem(item, o, at).Ok?
    ensures ItemAdvances(item, ObserveItem(item, o, at).value)
  {
    RevisionOrder(item.revision, if o.Some? then o.value.revision else item.revision, item.revision);
  }

  lemma CreateGrows(s: State, batch: Batch)
    requires ReduceCreate(s, batch, true).Ok?
    ensures Grows(s, ReduceCreate(s, batch, true).value)
  {
    forall id | BatchAt(s, id).Some? ensures BatchAt(ReduceCreate(s, batch, true).value, id) == BatchAt(s, id) {
      BatchAtAppend(s, batch, id);
    }
  }

  lemma SubscribeGrows(s: State, batchId: Text, sub: Subscription)
    requires Unique(s.batches, BatchId) && ReduceSubscribe(s, batchId, sub).Ok?
    ensures Grows(s, ReduceSubscribe(s, batchId, sub).value)
  {
    var prior := BatchAt(s, batchId).value;
    PutGrows(s, prior, prior.(subscriptions := prior.subscriptions + [sub]), s.notices);
  }

  lemma ObserveGrows(s: State, batchId: Text, observations: seq<Observation>, at: nat)
    requires Inv(s) && ReduceObserve(s, batchId, observations, at).Ok?
    ensures Grows(s, ReduceObserve(s, batchId, observations, at).value)
  {
    BatchAtOk(s, batchId);
    var prior := BatchAt(s, batchId).value;
    ObservedAdvances(prior, observations, at);
    var next := Progressed(prior, ObserveItems(prior.items, observations, at).value, at);
    NoticedStays(s, prior, next);
    PutGrows(s, prior, next, Noticed(s, prior, next).notices);
  }

  lemma NoticedStays(s: State, prior: Batch, next: Batch)
    requires NoticesOk(s)
    ensures |Noticed(s, prior, next).notices| == |s.notices|
    ensures forall i :: 0 <= i < |s.notices| ==> NoticeStays(s.notices[i], Noticed(s, prior, next).notices[i])
  {
    forall i | 0 <= i < |s.notices| ensures NoticeStays(s.notices[i], Noticed(s, prior, next).notices[i]) {
      assert NoticeOk(s, s.notices[i]);
    }
  }

  lemma IntendGrows(s: State, n: Notice)
    requires ReduceIntend(s, n).Ok?
    ensures Grows(s, ReduceIntend(s, n).value)
  {
    forall id ensures BatchAt(ReduceIntend(s, n).value, id) == BatchAt(s, id) {
    }
  }

  lemma ApplyGrows(s: State, e: Event)
    requires Inv(s) && Apply(s, e).Ok?
    ensures Grows(s, Apply(s, e).value)
  {
    match e {
      case Create(batch) => CreateGrows(s, batch);
      case Subscribe(batchId, sub) => SubscribeGrows(s, batchId, sub);
      case Observe(batchId, observations, at) => ObserveGrows(s, batchId, observations, at);
      case Intend(n) => IntendGrows(s, n);
      case Receive(intentId, receipt) => ReceiveStays(s, intentId, receipt);
    }
  }

  lemma ReceiveStays(s: State, intentId: IntentId, receipt: Text)
    requires Inv(s) && ReduceReceive(s, intentId, receipt).Ok?
    ensures Grows(s, ReduceReceive(s, intentId, receipt).value)
  {
    var t := ReduceReceive(s, intentId, receipt).value;
    var at := Find(s.notices, NoticeId, intentId);
    forall i | 0 <= i < |s.notices| ensures NoticeStays(s.notices[i], t.notices[i]) {
      if s.notices[i].intentId == intentId {
        DigestUnique(s, i, at);
      }
    }
    forall id | BatchAt(s, id).Some? ensures BatchAt(t, id) == BatchAt(s, id) {
    }
  }

  /** Over any run, observations only move forward and what happened to a notice stays. */
  lemma {:induction false} RunGrows(past: seq<Event>, more: seq<Event>)
    requires AllWritten(past + more) && Run(past + more).Some?
    ensures Run(past).Some? && Grows(Run(past).value, Run(past + more).value)
    decreases |more|
  {
    if more == [] {
      assert past + more == past;
    } else {
      var all := past + more;
      var n := |all| - 1;
      assert all[..n] == past + more[..|more| - 1];
      RunGrows(past, more[..|more| - 1]);
      RunKeeps(all[..n]);
      ApplyGrows(Run(all[..n]).value, all[n]);
      GrowsTwice(Run(past).value, Run(all[..n]).value, Run(all).value);
    }
  }

  // ----- No deadlock across batches -----

  /** The dependencies of a task that one batch still waits for. */
  function Awaited(b: Batch, work: Work): seq<Work> {
    var i := Find(b.items, RefOf, work);
    if i == |b.items| then [] else Unaccepted(b, b.items[i].dependsOn)
  }

  predicate AcceptedIn(b: Batch, work: Work) {
    var i := Find(b.items, RefOf, work);
    i < |b.items| && b.items[i].state == Accepted
  }

  function Unaccepted(b: Batch, refs: seq<Work>): (r: seq<Work>)
    ensures forall d :: d in r <==> d in refs && !AcceptedIn(b, d)
  {
    if refs == [] then [] else
    (if AcceptedIn(b, refs[0]) then [] else [refs[0]]) + Unaccepted(b, refs[1..])
  }

  /** The first batch that does not let a task start yet, with what it waits for. */
  method WorkspaceBatchBlocker(batches: seq<Batch>, work: Work) returns (blocker: Option<(Text, seq<Work>)>)
    ensures blocker.None? <==> forall i :: 0 <= i < |batches| ==> Awaited(batches[i], work) == []
    ensures blocker.Some? ==> exists i :: 0 <= i < |batches| && batches[i].id == blocker.value.0
                                          && Awaited(batches[i], work) == blocker.value.1 != []
  {
    for i := 0 to |batches|
      invariant forall k :: 0 <= k < i ==> Awaited(batches[k], work) == []
    {
      var pending := Awaited(batches[i], work);
      if pending != [] {
        return Some((batches[i].id, pending));
      }
    }
    blocker := None;
  }

  predicate Open(s: State, work: Work) {
    exists item :: item in AllItems(s.batches) && item.ref == work && item.state != Accepted
  }

  /** Separate batches never block each other for good: while some task is unaccepted somewhere, one such task
      is held up by no batch at all. */
  lemma SomeTaskIsUnblocked(s: State)
    requires Inv(s) && exists w :: Open(s, w)
    ensures exists w :: Open(s, w) && forall i :: 0 <= i < |s.batches| ==> Awaited(s.batches[i], w) == []
  {
    var items := AllItems(s.batches);
    var open := set item | item in items && item.state != Accepted :: item.ref;
    var some :| Open(s, some);
    assert some in open;
    var u := IndependentNode(Requirements(items), open);
    forall i | 0 <= i < |s.batches| ensures Awaited(s.batches[i], u) == [] {
      if Awaited(s.batches[i], u) != [] {
        var d := Awaited(s.batches[i], u)[0];
        assert d in Awaited(s.batches[i], u);
        AwaitedIsOpen(s, i, u, d);
        RequirementEdges(items, u, d);
      }
    }
    assert Open(s, u);
  }

  lemma AwaitedIsOpen(s: State, i: nat, work: Work, d: Work)
    requires Inv(s) && i < |s.batches| && d in Awaited(s.batches[i], work)
    ensures Open(s, d) && Requires(AllItems(s.batches), work, d)
  {
    var b := s.batches[i];
    assert BatchOk(b);
    var item := b.items[Find(b.items, RefOf, work)];
    assert d in item.dependsOn;
    var k := Find(b.items, RefOf, d);
    AllItemsHas(s.batches, b.items[k]);
    AllItemsHas(s.batches, item);
    var j :| 0 <= j < |AllItems(s.batches)| && AllItems(s.batches)[j] == item;
  }
}
