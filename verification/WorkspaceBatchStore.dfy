/** The store that writes workspace batches, and how it hands out the notices that completions owe. */
module WorkspaceBatchStores {
  import opened Wrappers
  import opened Identities
  import opened Keyed
  import opened WorkspaceBatches
  import opened WorkspaceBatchRuns

  datatype NewItem = NewItem(ref: Work, dependsOn: seq<Work>)

  function Started(items: seq<NewItem>): (r: seq<Item>)
    ensures |r| == |items|
    ensures forall i :: 0 <= i < |r| ==>
              r[i] == Item(items[i].ref, items[i].dependsOn, Revision(0, 0, 0, 0), Waiting, false, [])
  {
    seq(|items|, i requires 0 <= i < |items| =>
      Item(items[i].ref, items[i].dependsOn, Revision(0, 0, 0, 0), Waiting, false, []))
  }

  function PendingOf(notices: seq<Notice>): (r: seq<Notice>)
    ensures forall n :: n in r <==> n in notices && n.Pending()
  {
    if notices == [] then [] else
    PendingOf(notices[..|notices| - 1]) + (if notices[|notices| - 1].Pending() then [notices[|notices| - 1]] else [])
  }

  /** The one notice a completion epoch owes a subscription. */
  function Due(b: Batch, sub: Subscription): Notice {
    Notice(Digest(b.id, sub.id, b.epoch), b.id, sub.id, sub.destination, b.epoch, None, false)
  }

  predicate Noted(s: State, b: Batch, sub: Subscription) {
    Find(s.notices, NoticeKey, (b.id, sub.id, b.epoch)) < |s.notices|
  }

  predicate StillComplete(s: State, b: Batch) {
    BatchAt(s, b.id).Some? && BatchAt(s, b.id).value.phase == Complete && BatchAt(s, b.id).value.epoch == b.epoch
  }

  /** Subscriptions with one id in one batch are one subscription. */
  lemma SameSubscription(b: Batch, id: Text, one: Text, other: Text)
    requires Unique(b.subscriptions, SubscriptionId) && Subscribed(b, id, one) && Subscribed(b, id, other)
    ensures one == other
  {
    var i :| 0 <= i < |b.subscriptions| && b.subscriptions[i] == Subscription(id, one);
    var j :| 0 <= j < |b.subscriptions| && b.subscriptions[j] == Subscription(id, other);
    assert SubscriptionId(b.subscriptions[i]) == SubscriptionId(b.subscriptions[j]);
  }

  /** While the batch is still complete at the same epoch, its due notice is never refused. */
  lemma DueAccepted(s: State, b: Batch, sub: Subscription)
    requires Inv(s) && StillComplete(s, b) && Subscribed(BatchAt(s, b.id).value, sub.id, sub.destination)
    ensures ReduceIntend(s, Due(b, sub)).Ok? && Noted(ReduceIntend(s, Due(b, sub)).value, b, sub)
    ensures ReduceIntend(s, Due(b, sub)).value.batches == s.batches
  {
    var n := Due(b, sub);
    var i := Find(s.notices, NoticeKey, NoticeKey(n));
    if i < |s.notices| {
      assert NoticeOk(s, s.notices[i]);
      BatchAtOk(s, b.id);
      SameSubscription(BatchAt(s, b.id).value, sub.id, s.notices[i].destination, sub.destination);
    } else {
      FindAppend(s.notices, NoticeKey, n, NoticeKey(n));
    }
  }

  lemma NotedStays(s: State, t: State, b: Batch, sub: Subscription)
    requires Noted(s, b, sub) && Grows(s, t)
    ensures Noted(t, b, sub)
  {
    var i := Find(s.notices, NoticeKey, (b.id, sub.id, b.epoch));
    assert NoticeStays(s.notices[i], t.notices[i]);
  }

  class CoordinatorBatchStore {
    var state: State

    ghost predicate Valid()
      reads this
    {
      Inv(state)
    }

    constructor ()
      ensures Valid() && state == EMPTY
    {
      state := EMPTY;
      new;
      EmptyKeeps();
    }

    /** Reduce first, then keep: a refused event leaves the state as it was. */
    method Append(e: Event) returns (r: Result<State, Error>)
      requires Valid() && Written(e)
      modifies this
      ensures Valid() && r == Apply(old(state), e) && state == (if r.Ok? then r.value else old(state))
      ensures Grows(old(state), state)
    {
      var graphsOk := true;
      if e.Create? {
        graphsOk := ValidateGraph(e.batch.items);
        if graphsOk {
          graphsOk := ValidateWorkspaceGraph(state.batches + [e.batch]);
        }
      }
      r := Reduce(state, e, graphsOk);
      if r.Ok? {
        ApplyKeeps(state, e);
        ApplyGrows(state, e);
        state := r.value;
      } else {
        GrowsAlready(state);
      }
    }

    method Create(id: Text, name: Text, items: seq<NewItem>, subscriptions: seq<Subscription>)
      returns (r: Result<Batch, Error>)
      requires Valid()
      modifies this
      ensures Valid()
      ensures r.Err? ==> state == old(state)
      ensures r.Ok? ==> r.value == Batch(id, name, Started(items), subscriptions, InProgress, 0, [])
                        && state == old(state).(batches := old(state).batches + [r.value])
      ensures r.Ok? <==>
                && items != [] && |subscriptions| <= SUBSCRIPTION_LIMIT && Unique(subscriptions, SubscriptionId)
                         && BatchAt(old(state), id).None?
                         && GraphsOk(old(state).batches,
                                     Batch(id, name, Started(items), subscriptions, InProgress, 0, []))
    {
      if items == [] || |subscriptions| > SUBSCRIPTION_LIMIT {
        return Err(BadStart);
      }
      var batch := Batch(id, name, Started(items), subscriptions, InProgress, 0, []);
      var graphOk := ValidateGraph(batch.items);
      if !graphOk {
        return Err(BadGraph);
      }
      if !Unique(subscriptions, SubscriptionId) {
        return Err(SubscriptionDiffers);
      }
      var appended := Append(Event.Create(batch));
      r := if appended.Ok? then Ok(batch) else Err(appended.error);
    }

    /** Whatever other callers append while this one waits. */
    method Others()
      requires Valid()
      modifies this
      ensures Valid() && Grows(old(state), state)
    {
      var n: int := *;
      n := if n < 0 then 0 else n;
      ghost var before := state;
      GrowsAlready(state);
      for i := 0 to n
        invariant Valid() && Grows(before, state)
      {
        var e: Event := *;
        if Written(e) {
          ghost var now := state;
          var r := Append(e);
          GrowsTwice(before, now, state);
        }
      }
    }

    /** Record the notice one completion owes one subscription, unless it is there or no longer due. */
    method Intend(b: Batch, sub: Subscription, alone: bool) returns (failed: bool)
      requires Valid() && sub in b.subscriptions
      requires BatchAt(state, b.id).Some? && b.subscriptions <= BatchAt(state, b.id).value.subscriptions
      modifies this
      ensures Valid() && !failed && Grows(old(state), state)
      ensures alone ==> state.batches == old(state).batches
      ensures alone && StillComplete(old(state), b) ==> Noted(state, b, sub)
    {
      failed := false;
      GrowsAlready(state);
      if Find(state.notices, NoticeKey, (b.id, sub.id, b.epoch)) < |state.notices| {
        return;
      }
      ghost var before := state;
      if !alone {
        Others();
      }
      ghost var middle := state;
      SubscriptionStays(before, state, b, sub);
      if StillComplete(state, b) {
        DueAccepted(state, b, sub);
      }
      var r := Append(Event.Intend(Due(b, sub)));
      GrowsTwice(before, middle, state);
      if r.Err? {
        failed := StillComplete(state, b);
      }
    }

    /** The notices to deliver now. Nothing is handed out for a batch that is not complete at that very epoch,
        and, unless others write meanwhile, every subscription of every complete batch has its notice. */
    method NotificationIntents(alone: bool) returns (pending: seq<Notice>, failed: bool)
      requires Valid()
      modifies this
      ensures Valid() && !failed && Grows(old(state), state)
      ensures forall n :: n in pending <==> n in state.notices && n.Pending()
      ensures forall n :: n in pending ==> Current(state, n)
      ensures alone ==> state.batches == old(state).batches && AllNoted(state, state.batches)
    {
      var snapshot := state;
      failed := false;
      GrowsAlready(state);
      for i := 0 to |snapshot.batches|
        invariant !failed && Handled(snapshot, state, i, alone)
      {
        failed := IntendAll(snapshot, i, alone);
        if failed {
          return [], true;
        }
      }
      assert snapshot.batches[..|snapshot.batches|] == snapshot.batches;
      pending := PendingOf(state.notices);
      PendingIsCurrent(state);
    }

    /** The notices of one batch, if it was complete when the pass began. */
    method IntendAll(snapshot: State, i: nat, alone: bool) returns (failed: bool)
      requires Inv(snapshot) && i < |snapshot.batches| && Handled(snapshot, state, i, alone)
      modifies this
      ensures !failed && Handled(snapshot, state, i + 1, alone)
    {
      var b := snapshot.batches[i];
      failed := false;
      if b.phase == Complete {
        for j := 0 to |b.subscriptions|
          invariant !failed && HandledPart(snapshot, state, i, j, alone)
        {
          ghost var before := state;
          MayIntend(snapshot, before, i, j, alone);
          failed := Intend(b, b.subscriptions[j], alone);
          PartNext(snapshot, before, state, i, j, alone);
        }
      }
      PartDone(snapshot, state, i, alone);
    }
  }

  predicate Current(s: State, n: Notice) {
    BatchAt(s, n.batchId).Some? && BatchAt(s, n.batchId).value.phase == Complete
    && BatchAt(s, n.batchId).value.epoch == n.epoch
  }

  /** How far a pass over a snapshot has come: everything before batch `i` is noted, unless others interfere. */
  ghost predicate Handled(snapshot: State, now: State, i: nat, alone: bool)
    requires i <= |snapshot.batches|
  {
    && Inv(now) && Grows(snapshot, now)
    && (alone ==> now.batches == snapshot.batches && AllNoted(now, snapshot.batches[..i]))
  }

  ghost predicate HandledPart(snapshot: State, now: State, i: nat, j: nat, alone: bool)
    requires i < |snapshot.batches| && j <= |snapshot.batches[i].subscriptions|
  {
    && Handled(snapshot, now, i, alone)
    && (alone ==> SubsNoted(now, snapshot.batches[i], snapshot.batches[i].subscriptions[..j]))
  }

  lemma MayIntend(snapshot: State, now: State, i: nat, j: nat, alone: bool)
    requires Inv(snapshot) && i < |snapshot.batches| && snapshot.batches[i].phase == Complete
    requires j <= |snapshot.batches[i].subscriptions| && HandledPart(snapshot, now, i, j, alone)
    ensures BatchAt(now, snapshot.batches[i].id).Some?
    ensures snapshot.batches[i].subscriptions <= BatchAt(now, snapshot.batches[i].id).value.subscriptions
    ensures alone ==> StillComplete(now, snapshot.batches[i])
  {
    PlaceOf(snapshot, i);
    assert Advances(snapshot.batches[i], BatchAt(now, snapshot.batches[i].id).value);
  }

  lemma PartNext(snapshot: State, before: State, now: State, i: nat, j: nat, alone: bool)
    requires i < |snapshot.batches| && j < |snapshot.batches[i].subscriptions|
    requires HandledPart(snapshot, before, i, j, alone) && Inv(now) && Grows(before, now)
    requires alone ==>
               now.batches == before.batches && Noted(now, snapshot.batches[i], snapshot.batches[i].subscriptions[j])
    ensures HandledPart(snapshot, now, i, j + 1, alone)
  {
    var b := snapshot.batches[i];
    GrowsTwice(snapshot, before, now);
    if alone {
      AllNotedStays(before, now, snapshot.batches[..i]);
      SubsNotedStays(before, now, b, b.subscriptions[..j]);
      SubsNotedMore(now, b, j);
    }
  }

  lemma SubsNotedMore(s: State, b: Batch, j: nat)
    requires j < |b.subscriptions| && SubsNoted(s, b, b.subscriptions[..j]) && Noted(s, b, b.subscriptions[j])
    ensures SubsNoted(s, b, b.subscriptions[..j + 1])
  {
    assert b.subscriptions[..j + 1] == b.subscriptions[..j] + [b.subscriptions[j]];
  }

  lemma PartDone(snapshot: State, now: State, i: nat, alone: bool)
    requires i < |snapshot.batches| && Handled(snapshot, now, i, alone)
    requires snapshot.batches[i].phase == Complete ==>
               HandledPart(snapshot, now, i, |snapshot.batches[i].subscriptions|, alone)
    ensures Handled(snapshot, now, i + 1, alone)
  {
    var b := snapshot.batches[i];
    assert b.subscriptions[..|b.subscriptions|] == b.subscriptions;
    assert snapshot.batches[..i + 1] == snapshot.batches[..i] + [b];
  }

  predicate SubsNoted(s: State, b: Batch, subs: seq<Subscription>) {
    forall sub :: sub in subs ==> Noted(s, b, sub)
  }

  predicate AllNoted(s: State, batches: seq<Batch>) {
    forall i :: 0 <= i < |batches| && batches[i].phase == Complete ==>
      SubsNoted(s, batches[i], batches[i].subscriptions)
  }

  lemma SubsNotedStays(s: State, t: State, b: Batch, subs: seq<Subscription>)
    requires SubsNoted(s, b, subs) && Grows(s, t)
    ensures SubsNoted(t, b, subs)
  {
    forall sub | sub in subs ensures Noted(t, b, sub) {
      NotedStays(s, t, b, sub);
    }
  }

  lemma AllNotedStays(s: State, t: State, batches: seq<Batch>)
    requires AllNoted(s, batches) && Grows(s, t)
    ensures AllNoted(t, batches)
  {
    forall i | 0 <= i < |batches| && batches[i].phase == Complete
      ensures SubsNoted(t, batches[i], batches[i].subscriptions)
    {
      SubsNotedStays(s, t, batches[i], batches[i].subscriptions);
    }
  }

  lemma GrowsAlready(s: State)
    ensures Grows(s, s)
  {
    forall id | BatchAt(s, id).Some? ensures Advances(BatchAt(s, id).value, BatchAt(s, id).value) {
    }
  }

  lemma PlaceOf(s: State, i: nat)
    requires Unique(s.batches, BatchId) && i < |s.batches|
    ensures BatchAt(s, s.batches[i].id) == Some(s.batches[i])
  {
  }

  lemma SubscriptionStays(s: State, t: State, b: Batch, sub: Subscription)
    requires Grows(s, t) && sub in b.subscriptions
    requires BatchAt(s, b.id).Some? && b.subscriptions <= BatchAt(s, b.id).value.subscriptions
    ensures BatchAt(t, b.id).Some? && Subscribed(BatchAt(t, b.id).value, sub.id, sub.destination)
  {
    var i :| 0 <= i < |b.subscriptions| && b.subscriptions[i] == sub;
    assert Advances(BatchAt(s, b.id).value, BatchAt(t, b.id).value);
    assert BatchAt(t, b.id).value.subscriptions[i] == Subscription(sub.id, sub.destination);
  }

  lemma PendingIsCurrent(s: State)
    requires Inv(s)
    ensures forall n :: n in s.notices && n.Pending() ==> Current(s, n)
  {
    forall n | n in s.notices && n.Pending() ensures Current(s, n) {
      var i :| 0 <= i < |s.notices| && s.notices[i] == n;
      assert NoticeOk(s, s.notices[i]);
    }
  }
}
