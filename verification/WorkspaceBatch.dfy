/** Batches of tasks across projects: their observed progress, their completion epochs and the notices those
    completions owe, and the dependency graph that all batches share. */
module WorkspaceBatches {
  import opened Wrappers
  import opened Identities
  import opened Keyed
  import opened Digraphs

  const HISTORY_LIMIT := 1024
  const SUBSCRIPTION_LIMIT := 256

  datatype Progress = Waiting | Active | Blocked | Failed | Accepted

  datatype Phase = InProgress | Stuck | Failing | Complete

  datatype Revision = Revision(task: nat, generation: nat, attempt: nat, acceptance: nat)

  datatype ItemEntry = ItemEntry(state: Progress, activeAssignment: bool, at: nat)

  datatype Item = Item(
    ref: Work,
    dependsOn: seq<Work>,
    revision: Revision,
    state: Progress,
    activeAssignment: bool,
    history: seq<ItemEntry>)

  datatype Subscription = Subscription(id: Text, destination: Text)

  datatype Change = Completed | Reopened | Failure

  datatype Entry = Entry(change: Change, at: nat)

  datatype Batch = Batch(
    id: Text,
    name: Text,
    items: seq<Item>,
    subscriptions: seq<Subscription>,
    phase: Phase,
    epoch: nat,
    history: seq<Entry>)

  /** Identities of notices: the store digests the batch, the subscription and the epoch. */
  datatype IntentId = Digest(batchId: Text, subscriptionId: Text, epoch: nat) | OtherIntent(text: Text)

  datatype Notice = Notice(
    intentId: IntentId,
    batchId: Text,
    subscriptionId: Text,
    destination: Text,
    epoch: nat,
    receipt: Option<Text>,
    suppressed: bool)
  {
    predicate Pending() {
      receipt.None? && !suppressed
    }
  }

  datatype State = State(batches: seq<Batch>, notices: seq<Notice>)

  const EMPTY := State([], [])

  datatype Observation = Observation(ref: Work, revision: Revision, state: Progress, activeAssignment: bool)

  datatype Event =
    | Create(batch: Batch)
    | Subscribe(batchId: Text, subscription: Subscription)
    | Observe(batchId: Text, observations: seq<Observation>, at: nat)
    | Intend(notice: Notice)
    | Receive(intentId: IntentId, receipt: Text)

  datatype Error =
    | Missing | IdUsed | BadGraph | BadStart | SubscriptionDiffers | SubscriptionLimit | RepeatsTask | NotRequired
    | Stale | Conflict | HistoryLimit | NotCurrent | NoticeDiffers | NoIntent | ReceiptDiffers | WasSuppressed

  function BatchId(b: Batch): Text {
    b.id
  }

  function RefOf(item: Item): Work {
    item.ref
  }

  function BatchAt(s: State, id: Text): Option<Batch> {
    var i := Find(s.batches, BatchId, id);
    if i < |s.batches| then Some(s.batches[i]) else None
  }

  // ----- Order of observations -----

  /** Negative, zero or positive as the first differing component says. */
  function CompareRevision(a: Revision, b: Revision): int {
    if a.task != b.task then a.task - b.task
    else if a.generation != b.generation then a.generation - b.generation
    else if a.attempt != b.attempt then a.attempt - b.attempt
    else a.acceptance - b.acceptance
  }

  predicate AtMost(a: Revision, b: Revision) {
    CompareRevision(a, b) <= 0
  }

  /** Observation revisions are totally ordered, so "newer" is never ambiguous. */
  lemma RevisionOrder(a: Revision, b: Revision, c: Revision)
    ensures CompareRevision(a, b) == 0 <==> a == b
    ensures AtMost(a, b) || AtMost(b, a)
    ensures AtMost(a, b) && AtMost(b, a) ==> a == b
    ensures AtMost(a, b) && AtMost(b, c) ==> AtMost(a, c)
    ensures a.task < b.task ==> !AtMost(b, a)
  {
  }

  // ----- Phases and epochs -----

  function Derive(items: seq<Item>): Phase {
    if forall item :: item in items ==> item.state == Accepted then Complete
    else if exists item :: item in items && item.state == Failed then Failing
    else if exists item :: item in items && item.state == Blocked then Stuck
    else InProgress
  }

  function Completions(history: seq<Entry>): nat {
    if history == [] then 0 else
    Completions(history[..|history| - 1]) + (if history[|history| - 1].change == Completed then 1 else 0)
  }

  /** Whether the batch is complete after its history: the last completion was not reopened. */
  predicate Standing(history: seq<Entry>) {
    history != []
    && (history[|history| - 1].change == Completed
        || (history[|history| - 1].change == Failure && Standing(history[..|history| - 1])))
  }

  /** Completions and reopenings take turns, completion first, and nothing fails while complete. */
  predicate TakesTurns(history: seq<Entry>) {
    history == []
    || (TakesTurns(history[..|history| - 1])
        && match history[|history| - 1].change
           case Completed => !Standing(history[..|history| - 1])
           case Reopened => Standing(history[..|history| - 1])
           case Failure => !Standing(history[..|history| - 1]))
  }

  lemma Extended(history: seq<Entry>, e: Entry)
    ensures Completions(history + [e]) == Completions(history) + (if e.change == Completed then 1 else 0)
    ensures Standing(history + [e]) <==> e.change == Completed || (e.change == Failure && Standing(history))
    ensures TakesTurns(history + [e]) <==>
              TakesTurns(history) && (if e.change == Reopened then Standing(history) else !Standing(history))
  {
    assert (history + [e])[..|history|] == history;
  }

  // ----- The graph of one batch and of all of them -----

  function Requirements(items: seq<Item>): Graph<Work> {
    if items == [] then map[] else
    var rest, last := Requirements(items[..|items| - 1]), items[|items| - 1];
    rest[last.ref := (if last.ref in rest then rest[last.ref] else []) + last.dependsOn]
  }

  predicate Requires(items: seq<Item>, a: Work, b: Work) {
    exists i :: 0 <= i < |items| && items[i].ref == a && b in items[i].dependsOn
  }

  lemma {:induction false} RequirementEdges(items: seq<Item>, a: Work, b: Work)
    ensures Edge(Requirements(items), a, b) <==> Requires(items, a, b)
    ensures a in Requirements(items) <==> exists i :: 0 <= i < |items| && items[i].ref == a
  {
    if items != [] {
      var n := |items| - 1;
      RequirementEdges(items[..n], a, b);
      assert items[n].ref == a ==> a in Requirements(items);
      assert items[n].ref == a && b in items[n].dependsOn ==> Requires(items, a, b);
      if Requires(items[..n], a, b) {
        var i :| 0 <= i < n && items[..n][i].ref == a && b in items[..n][i].dependsOn;
        assert items[i].ref == a;
      }
      if Requires(items, a, b) {
        var i :| 0 <= i < |items| && items[i].ref == a && b in items[i].dependsOn;
        if i < n {
          assert items[..n][i].ref == a;
        }
      }
      if i :| 0 <= i < |items| && items[i].ref == a {
        if i < n {
          assert items[..n][i].ref == a;
        }
      }
    }
  }

  function AllItems(batches: seq<Batch>): seq<Item> {
    if batches == [] then [] else AllItems(batches[..|batches| - 1]) + batches[|batches| - 1].items
  }

  lemma {:induction false} AllItemsHas(batches: seq<Batch>, item: Item)
    ensures item in AllItems(batches) <==> exists i :: 0 <= i < |batches| && item in batches[i].items
  {
    if batches != [] {
      var n := |batches| - 1;
      AllItemsHas(batches[..n], item);
      if i :| 0 <= i < |batches| && item in batches[i].items {
        if i < n {
          assert item in batches[..n][i].items;
        }
      }
    }
  }

  predicate DistinctRefs(refs: seq<Work>) {
    forall i, j :: 0 <= i < j < |refs| ==> refs[i] != refs[j]
  }

  /** What one batch's items must satisfy, apart from cycles. */
  predicate ItemsOk(items: seq<Item>) {
    && Unique(items, RefOf)
    && (forall i :: 0 <= i < |items| ==> DistinctRefs(items[i].dependsOn))
    && (forall i, d :: 0 <= i < |items| && d in items[i].dependsOn ==> Find(items, RefOf, d) < |items|)
  }

  ghost predicate GraphsOk(batches: seq<Batch>, batch: Batch) {
    && ItemsOk(batch.items) && Acyclic(Requirements(batch.items))
    && Acyclic(Requirements(AllItems(batches + [batch])))
  }

  method ValidateGraph(items: seq<Item>) returns (ok: bool)
    ensures ok <==> ItemsOk(items) && Acyclic(Requirements(items))
  {
    if !ItemsOk(items) {
      return false;
    }
    var byKey, order := BuildEdges(items, map[], [], []);
    assert [] + items == items;
    ok := CheckAcyclic(byKey, order);
  }

  lemma RequirementsStep(items: seq<Item>, item: Item)
    ensures var edges := Requirements(items);
      Requirements(items + [item])
      == edges[item.ref := (if item.ref in edges then edges[item.ref] else []) + item.dependsOn]
  {
    assert (items + [item])[..|items|] == items;
  }

  method BuildEdges(items: seq<Item>, edges: Graph<Work>, order: seq<Work>, ghost before: seq<Item>)
    returns (after: Graph<Work>, nodes: seq<Work>)
    requires edges == Requirements(before) && forall k :: k in edges ==> k in order
    ensures after == Requirements(before + items) && forall k :: k in after ==> k in nodes
  {
    after, nodes := edges, order;
    assert before + items[..0] == before;
    for i := 0 to |items|
      invariant after == Requirements(before + items[..i]) && forall k :: k in after ==> k in nodes
    {
      var item := items[i];
      RequirementsStep(before + items[..i], item);
      assert before + items[..i + 1] == before + items[..i] + [item];
      after := after[item.ref := (if item.ref in after then after[item.ref] else []) + item.dependsOn];
      nodes := nodes + [item.ref];
    }
    assert items[..|items|] == items;
  }

  method ValidateWorkspaceGraph(batches: seq<Batch>) returns (ok: bool)
    ensures ok <==> Acyclic(Requirements(AllItems(batches)))
  {
    var edges: Graph<Work> := map[];
    var order: seq<Work> := [];
    for i := 0 to |batches|
      invariant edges == Requirements(AllItems(batches[..i])) && forall k :: k in edges ==> k in order
    {
      assert batches[..i + 1][..i] == batches[..i];
      edges, order := BuildEdges(batches[i].items, edges, order, AllItems(batches[..i]));
    }
    assert batches[..|batches|] == batches;
    ok := CheckAcyclic(edges, order);
  }

  // ----- The reducer -----

  predicate Fresh(b: Batch) {
    && b.phase == InProgress && b.epoch == 0 && b.history == []
    && forall i :: 0 <= i < |b.items| ==>
         && b.items[i].revision == Revision(0, 0, 0, 0) && b.items[i].state == Waiting
         && !b.items[i].activeAssignment && b.items[i].history == []
  }

  function ObserveItem(item: Item, o: Option<Observation>, at: nat): Result<Item, Error> {
    if o.None? then Ok(item) else
    var compared := CompareRevision(o.value.revision, item.revision);
    if compared < 0 then Err(Stale)
    else if compared == 0 then
      if o.value.state != item.state || o.value.activeAssignment != item.activeAssignment then Err(Conflict)
      else Ok(item)
    else if |item.history| >= HISTORY_LIMIT then Err(HistoryLimit)
    else Ok(item.(revision := o.value.revision, state := o.value.state, activeAssignment := o.value.activeAssignment,
                  history := item.history + [ItemEntry(o.value.state, o.value.activeAssignment, at)]))
  }

  function ObservationRef(o: Observation): Work {
    o.ref
  }

  function Observed(observations: seq<Observation>, ref: Work): Option<Observation> {
    var i := Find(observations, ObservationRef, ref);
    if i < |observations| then Some(observations[i]) else None
  }

  function ObserveItems(items: seq<Item>, observations: seq<Observation>, at: nat): (r: Result<seq<Item>, Error>)
    ensures r.Ok? ==> |r.value| == |items|
    ensures r.Ok? ==> forall i :: 0 <= i < |items| ==>
              ObserveItem(items[i], Observed(observations, items[i].ref), at) == Ok(r.value[i])
  {
    if items == [] then Ok([]) else
    var n := |items| - 1;
    match ObserveItems(items[..n], observations, at)
    case Err(e) => Err(e)
    case Ok(rest) =>
      match ObserveItem(items[n], Observed(observations, items[n].ref), at)
      case Err(e) => Err(e)
      case Ok(item) => Ok(rest + [item])
  }

  /** The batch after its items changed. */
  function Progressed(b: Batch, items: seq<Item>, at: nat): Batch {
    var phase := Derive(items);
    var next := b.(items := items, phase := phase);
    if phase == Complete && b.phase != Complete then
      next.(epoch := b.epoch + 1, history := b.history + [Entry(Completed, at)])
    else if b.phase == Complete && phase != Complete then
      next.(history := b.history + [Entry(Reopened, at)])
    else if phase == Failing && b.phase != Failing then
      next.(history := b.history + [Entry(Failure, at)])
    else next
  }

  function Suppressed(n: Notice, batchId: Text, epoch: nat): Notice {
    if n.batchId == batchId && n.epoch == epoch && n.receipt.None? then n.(suppressed := true) else n
  }

  function Suppress(notices: seq<Notice>, batchId: Text, epoch: nat): seq<Notice> {
    seq(|notices|, i requires 0 <= i < |notices| => Suppressed(notices[i], batchId, epoch))
  }

  /** Store a batch's progress; reopening a completed batch withdraws its undelivered notices. */
  function Noticed(s: State, prior: Batch, next: Batch): State {
    State(Put(s.batches, BatchId, next),
          if prior.phase == Complete && next.phase != Complete then Suppress(s.notices, prior.id, prior.epoch)
          else s.notices)
  }

  function Received(n: Notice, intentId: IntentId, receipt: Text): Notice {
    if n.intentId == intentId then n.(receipt := Some(receipt)) else n
  }

  function ReceiveAll(notices: seq<Notice>, intentId: IntentId, receipt: Text): seq<Notice> {
    seq(|notices|, i requires 0 <= i < |notices| => Received(notices[i], intentId, receipt))
  }

  function SubscriptionId(s: Subscription): Text {
    s.id
  }

  function NoticeKey(n: Notice): (Text, Text, nat) {
    (n.batchId, n.subscriptionId, n.epoch)
  }

  function NoticeId(n: Notice): IntentId {
    n.intentId
  }

  predicate Subscribed(b: Batch, id: Text, destination: Text) {
    exists i :: 0 <= i < |b.subscriptions| && b.subscriptions[i] == Subscription(id, destination)
  }

  function ReduceCreate(s: State, batch: Batch, graphsOk: bool): Result<State, Error> {
    if BatchAt(s, batch.id).Some? then Err(IdUsed)
    else if !graphsOk then Err(BadGraph)
    else if !Fresh(batch) || batch.items == [] || |batch.subscriptions| > SUBSCRIPTION_LIMIT then Err(BadStart)
    else Ok(s.(batches := s.batches + [batch]))
  }

  function ReduceSubscribe(s: State, batchId: Text, sub: Subscription): Result<State, Error> {
    match BatchAt(s, batchId)
    case None => Err(Missing)
    case Some(prior) =>
      var i := Find(prior.subscriptions, SubscriptionId, sub.id);
      if i < |prior.subscriptions| then
        if prior.subscriptions[i].destination != sub.destination then Err(SubscriptionDiffers) else Ok(s)
      else if |prior.subscriptions| >= SUBSCRIPTION_LIMIT then Err(SubscriptionLimit)
      else Ok(s.(batches := Put(s.batches, BatchId, prior.(subscriptions := prior.subscriptions + [sub]))))
  }

  function ReduceObserve(s: State, batchId: Text, observations: seq<Observation>, at: nat): Result<State, Error> {
    match BatchAt(s, batchId)
    case None => Err(Missing)
    case Some(prior) =>
      if !Unique(observations, ObservationRef) then Err(RepeatsTask)
      else if exists i :: 0 <= i < |observations| && Find(prior.items, RefOf, observations[i].ref) == |prior.items| then
        Err(NotRequired)
      else
        match ObserveItems(prior.items, observations, at)
        case Err(e) => Err(e)
        case Ok(items) =>
          var next := Progressed(prior, items, at);
          if |next.history| > HISTORY_LIMIT then Err(HistoryLimit) else Ok(Noticed(s, prior, next))
  }

  function ReduceIntend(s: State, n: Notice): Result<State, Error> {
    match BatchAt(s, n.batchId)
    case None => Err(Missing)
    case Some(b) =>
      if b.phase != Complete || b.epoch != n.epoch || !Subscribed(b, n.subscriptionId, n.destination)
      then Err(NotCurrent)
      else
        var i := Find(s.notices, NoticeKey, NoticeKey(n));
        if i < |s.notices| then
          if s.notices[i].intentId != n.intentId || s.notices[i].destination != n.destination then Err(NoticeDiffers)
          else Ok(s)
        else Ok(s.(notices := s.notices + [n]))
  }

  function ReduceReceive(s: State, intentId: IntentId, receipt: Text): Result<State, Error> {
    var i := Find(s.notices, NoticeId, intentId);
    if i == |s.notices| then Err(NoIntent)
    else if s.notices[i].receipt.Some? then
      if s.notices[i].receipt != Some(receipt) then Err(ReceiptDiffers) else Ok(s)
    else if s.notices[i].suppressed then Err(WasSuppressed)
    else Ok(s.(notices := ReceiveAll(s.notices, intentId, receipt)))
  }

  function Reduce(s: State, e: Event, graphsOk: bool): Result<State, Error> {
    match e
    case Create(batch) => ReduceCreate(s, batch, graphsOk)
    case Subscribe(batchId, sub) => ReduceSubscribe(s, batchId, sub)
    case Observe(batchId, observations, at) => ReduceObserve(s, batchId, observations, at)
    case Intend(n) => ReduceIntend(s, n)
    case Receive(intentId, receipt) => ReduceReceive(s, intentId, receipt)
  }

  ghost function Apply(s: State, e: Event): Result<State, Error> {
    Reduce(s, e, e.Create? ==> GraphsOk(s.batches, e.batch))
  }

  /** What the store's own methods write: distinct subscriptions, and notices under their digest. */
  predicate Written(e: Event) {
    match e
    case Create(batch) => Unique(batch.subscriptions, SubscriptionId)
    case Intend(n) => n.intentId == Digest(n.batchId, n.subscriptionId, n.epoch) && n.Pending()
    case _ => true
  }

  // ----- Every reachable state -----

  predicate BatchOk(b: Batch) {
    && b.items != [] && ItemsOk(b.items) && b.phase == Derive(b.items)
    && HistoryOk(b) && Unique(b.subscriptions, SubscriptionId)
  }

  predicate NoticeOk(s: State, n: Notice) {
    && n.intentId == Digest(n.batchId, n.subscriptionId, n.epoch)
    && !(n.receipt.Some? && n.suppressed)
    && BatchAt(s, n.batchId).Some?
    && var b := BatchAt(s, n.batchId).value;
       && 1 <= n.epoch <= b.epoch
       && Subscribed(b, n.subscriptionId, n.destination)
       && (n.Pending() ==> b.phase == Complete && n.epoch == b.epoch)
  }

  predicate NoticesOk(s: State) {
    Unique(s.notices, NoticeKey) && forall i :: 0 <= i < |s.notices| ==> NoticeOk(s, s.notices[i])
  }

  ghost predicate Inv(s: State) {
    && Unique(s.batches, BatchId)
    && (forall i :: 0 <= i < |s.batches| ==> BatchOk(s.batches[i]))
    && Acyclic(Requirements(AllItems(s.batches)))
    && NoticesOk(s)
  }

  // ----- Steps keep it -----

  predicate SameShape(a: seq<Item>, b: seq<Item>) {
    |a| == |b| && forall i :: 0 <= i < |a| ==> a[i].ref == b[i].ref && a[i].dependsOn == b[i].dependsOn
  }

  lemma {:induction false} ShapeDecides(a: seq<Item>, b: seq<Item>)
    requires SameShape(a, b)
    ensures Requirements(a) == Requirements(b)
  {
    if a != [] {
      ShapeDecides(a[..|a| - 1], b[..|b| - 1]);
    }
  }

  lemma {:induction false} AllShapes(a: seq<Batch>, b: seq<Batch>)
    requires |a| == |b| && forall i :: 0 <= i < |a| ==> SameShape(a[i].items, b[i].items)
    ensures SameShape(AllItems(a), AllItems(b))
  {
    if a != [] {
      AllShapes(a[..|a| - 1], b[..|b| - 1]);
    }
  }

  lemma FindShape(a: seq<Item>, b: seq<Item>, ref: Work)
    requires SameShape(a, b)
    ensures Find(a, RefOf, ref) == Find(b, RefOf, ref)
  {
  }

  lemma ShapeItemsOk(a: seq<Item>, b: seq<Item>)
    requires SameShape(a, b) && ItemsOk(a)
    ensures ItemsOk(b)
  {
    forall i, d | 0 <= i < |b| && d in b[i].dependsOn ensures Find(b, RefOf, d) < |b| {
      assert d in a[i].dependsOn;
      FindShape(a, b, d);
    }
  }

  lemma BatchAtAppend(s: State, b: Batch, id: Text)
    requires BatchAt(s, b.id).None?
    ensures BatchAt(s.(batches := s.batches + [b]), id) == if id == b.id then Some(b) else BatchAt(s, id)
  {
    FindAppend(s.batches, BatchId, b, id);
  }

  lemma BatchAtPut(batches: seq<Batch>, b: Batch, id: Text, notices: seq<Notice>, others: seq<Notice>)
    requires Unique(batches, BatchId) && Find(batches, BatchId, b.id) < |batches|
    ensures BatchAt(State(Put(batches, BatchId, b), notices), id)
         == if id == b.id then Some(b) else BatchAt(State(batches, others), id)
  {
    FindSameKeys(batches, Put(batches, BatchId, b), BatchId, id);
  }

  lemma CreateKeeps(s: State, batch: Batch)
    requires Inv(s) && GraphsOk(s.batches, batch) && Written(Create(batch)) && ReduceCreate(s, batch, true).Ok?
    ensures Inv(ReduceCreate(s, batch, true).value)
  {
    var after := ReduceCreate(s, batch, true).value;
    assert batch.items[0].state != Accepted;
    assert BatchOk(batch);
    forall i | 0 <= i < |after.notices| ensures NoticeOk(after, after.notices[i]) {
      assert NoticeOk(s, s.notices[i]);
      BatchAtAppend(s, batch, after.notices[i].batchId);
    }
  }

  /** Replacing a batch by one with the same items' shape keeps the shared graph. */
  lemma PutGraph(batches: seq<Batch>, b: Batch)
    requires Unique(batches, BatchId) && Find(batches, BatchId, b.id) < |batches|
    requires SameShape(batches[Find(batches, BatchId, b.id)].items, b.items)
    requires Acyclic(Requirements(AllItems(batches)))
    ensures Acyclic(Requirements(AllItems(Put(batches, BatchId, b))))
  {
    var after := Put(batches, BatchId, b);
    AllShapes(batches, after);
    ShapeDecides(AllItems(batches), AllItems(after));
  }

  lemma PutKeeps(s: State, b: Batch, notices: seq<Notice>)
    requires Inv(s) && BatchOk(b) && BatchAt(s, b.id).Some? && SameShape(BatchAt(s, b.id).value.items, b.items)
    requires NoticesOk(State(Put(s.batches, BatchId, b), notices))
    ensures Inv(State(Put(s.batches, BatchId, b), notices))
  {
    PutGraph(s.batches, b);
    PutUnique(s.batches, BatchId, b);
  }

  lemma SubscribeKeeps(s: State, batchId: Text, sub: Subscription)
    requires Inv(s) && ReduceSubscribe(s, batchId, sub).Ok?
    ensures Inv(ReduceSubscribe(s, batchId, sub).value)
  {
    var prior := BatchAt(s, batchId).value;
    if Find(prior.subscriptions, SubscriptionId, sub.id) == |prior.subscriptions| {
      var next := prior.(subscriptions := prior.subscriptions + [sub]);
      var after := State(Put(s.batches, BatchId, next), s.notices);
      forall i | 0 <= i < |s.notices| ensures NoticeOk(after, s.notices[i]) {
        var n := s.notices[i];
        assert NoticeOk(s, n);
        BatchAtPut(s.batches, next, n.batchId, s.notices, s.notices);
        SubscribedMore(prior, sub, n.subscriptionId, n.destination);
      }
      PutKeeps(s, next, s.notices);
    }
  }

  lemma SubscribedMore(b: Batch, sub: Subscription, id: Text, destination: Text)
    ensures Subscribed(b, id, destination) ==> Subscribed(b.(subscriptions := b.subscriptions + [sub]), id, destination)
  {
    if Subscribed(b, id, destination) {
      var i :| 0 <= i < |b.subscriptions| && b.subscriptions[i] == Subscription(id, destination);
      assert (b.subscriptions + [sub])[i] == b.subscriptions[i];
    }
  }

  lemma ProgressedOk(b: Batch, items: seq<Item>, at: nat)
    requires BatchOk(b) && SameShape(b.items, items)
    ensures BatchOk(Progressed(b, items, at)) && b.epoch <= Progressed(b, items, at).epoch
    ensures b.phase != Complete && Progressed(b, items, at).phase == Complete ==>
              Progressed(b, items, at).epoch == b.epoch + 1
    ensures b.phase == Complete ==> Progressed(b, items, at).epoch == b.epoch
  {
    ShapeItemsOk(b.items, items);
    ProgressedHistory(b, items, at);
  }

  predicate HistoryOk(b: Batch) {
    && b.epoch == Completions(b.history) && TakesTurns(b.history) && (b.phase == Complete <==> Standing(b.history))
  }

  /** An entry for a completion, a reopening or a failure that happens now keeps the history in step. */
  lemma HistoryExtended(b: Batch, next: Batch, e: Entry)
    requires HistoryOk(b) && next.history == b.history + [e]
    requires match e.change
             case Completed => b.phase != Complete && next.phase == Complete && next.epoch == b.epoch + 1
             case Reopened => b.phase == Complete && next.phase != Complete && next.epoch == b.epoch
             case Failure => b.phase != Complete && next.phase != Complete && next.epoch == b.epoch
    ensures HistoryOk(next)
  {
    Extended(b.history, e);
  }

  lemma ProgressedHistory(b: Batch, items: seq<Item>, at: nat)
    requires HistoryOk(b)
    ensures HistoryOk(Progressed(b, items, at))
  {
    var next := Progressed(b, items, at);
    if next.phase == Complete && b.phase != Complete {
      HistoryExtended(b, next, Entry(Completed, at));
    } else if b.phase == Complete && next.phase != Complete {
      HistoryExtended(b, next, Entry(Reopened, at));
    } else if next.phase == Failing && b.phase != Failing {
      HistoryExtended(b, next, Entry(Failure, at));
    }
  }

  lemma ObserveNotice(s: State, next: Batch, n: Notice, notices: seq<Notice>)
    requires Unique(s.batches, BatchId) && BatchAt(s, next.id).Some? && NoticeOk(s, n)
    requires next.subscriptions == BatchAt(s, next.id).value.subscriptions
    requires BatchAt(s, next.id).value.epoch <= next.epoch
    requires BatchAt(s, next.id).value.phase == Complete && next.phase == Complete ==>
               next.epoch == BatchAt(s, next.id).value.epoch
    ensures BatchAt(s, next.id).value.phase == Complete && next.phase != Complete ==>
              NoticeOk(State(Put(s.batches, BatchId, next), notices),
                       Suppressed(n, next.id, BatchAt(s, next.id).value.epoch))
    ensures !(BatchAt(s, next.id).value.phase == Complete && next.phase != Complete) ==>
              NoticeOk(State(Put(s.batches, BatchId, next), notices), n)
  {
    BatchAtPut(s.batches, next, n.batchId, notices, s.notices);
  }

  lemma ObserveShape(items: seq<Item>, observations: seq<Observation>, at: nat)
    requires ObserveItems(items, observations, at).Ok?
    ensures SameShape(items, ObserveItems(items, observations, at).value)
  {
    var after := ObserveItems(items, observations, at).value;
    forall i | 0 <= i < |items| ensures items[i].ref == after[i].ref && items[i].dependsOn == after[i].dependsOn {
      assert ObserveItem(items[i], Observed(observations, items[i].ref), at) == Ok(after[i]);
    }
  }

  lemma ObserveNotices(s: State, next: Batch)
    requires Unique(s.batches, BatchId) && BatchAt(s, next.id).Some? && NoticesOk(s)
    requires next.subscriptions == BatchAt(s, next.id).value.subscriptions
    requires BatchAt(s, next.id).value.epoch <= next.epoch
    requires BatchAt(s, next.id).value.phase == Complete && next.phase == Complete ==>
               next.epoch == BatchAt(s, next.id).value.epoch
    ensures BatchAt(s, next.id).value.phase == Complete && next.phase != Complete ==>
              NoticesOk(State(Put(s.batches, BatchId, next),
                              Suppress(s.notices, next.id, BatchAt(s, next.id).value.epoch)))
    ensures !(BatchAt(s, next.id).value.phase == Complete && next.phase != Complete) ==>
              NoticesOk(State(Put(s.batches, BatchId, next), s.notices))
  {
    var prior := BatchAt(s, next.id).value;
    var notices := if prior.phase == Complete && next.phase != Complete then Suppress(s.notices, next.id, prior.epoch)
                   else s.notices;
    SuppressUnique(s.notices, next.id, prior.epoch);
    forall i | 0 <= i < |notices| ensures NoticeOk(State(Put(s.batches, BatchId, next), notices), notices[i]) {
      ObserveNotice(s, next, s.notices[i], notices);
    }
  }

  lemma BatchAtOk(s: State, id: Text)
    requires Inv(s) && BatchAt(s, id).Some?
    ensures BatchOk(BatchAt(s, id).value) && BatchAt(s, id).value.id == id
  {
  }

  predicate Continues(prior: Batch, next: Batch) {
    && prior.id == next.id && prior.subscriptions == next.subscriptions && SameShape(prior.items, next.items)
    && prior.epoch <= next.epoch && (prior.phase == Complete && next.phase == Complete ==> next.epoch == prior.epoch)
  }

  lemma ContinueKeeps(s: State, prior: Batch, next: Batch)
    requires Inv(s) && BatchAt(s, next.id) == Some(prior) && BatchOk(next) && Continues(prior, next)
    ensures Inv(Noticed(s, prior, next))
  {
    ObserveNotices(s, next);
    PutKeeps(s, next, Noticed(s, prior, next).notices);
  }

  lemma ObserveKeeps(s: State, batchId: Text, observations: seq<Observation>, at: nat)
    requires Inv(s) && ReduceObserve(s, batchId, observations, at).Ok?
    ensures Inv(ReduceObserve(s, batchId, observations, at).value)
  {
    BatchAtOk(s, batchId);
    ObserveReduced(s, batchId, observations, at);
    var prior := BatchAt(s, batchId).value;
    ObserveShape(prior.items, observations, at);
    ProgressKeeps(s, prior, ObserveItems(prior.items, observations, at).value, at);
  }

  lemma ObserveReduced(s: State, batchId: Text, observations: seq<Observation>, at: nat)
    requires ReduceObserve(s, batchId, observations, at).Ok?
    ensures BatchAt(s, batchId).Some? && ObserveItems(BatchAt(s, batchId).value.items, observations, at).Ok?
    ensures var prior := BatchAt(s, batchId).value;
            ReduceObserve(s, batchId, observations, at).value
            == Noticed(s, prior, Progressed(prior, ObserveItems(prior.items, observations, at).value, at))
  {
  }

  lemma ProgressKeeps(s: State, prior: Batch, items: seq<Item>, at: nat)
    requires Inv(s) && BatchAt(s, prior.id) == Some(prior) && BatchOk(prior) && SameShape(prior.items, items)
    ensures Inv(Noticed(s, prior, Progressed(prior, items, at)))
  {
    ProgressedOk(prior, items, at);
    ContinueKeeps(s, prior, Progressed(prior, items, at));
  }

  lemma SuppressUnique(notices: seq<Notice>, batchId: Text, epoch: nat)
    requires Unique(notices, NoticeKey)
    ensures Unique(Suppress(notices, batchId, epoch), NoticeKey)
  {
    forall i | 0 <= i < |notices| ensures NoticeKey(Suppress(notices, batchId, epoch)[i]) == NoticeKey(notices[i]) {
    }
  }

  lemma IntendKeeps(s: State, n: Notice)
    requires Inv(s) && Written(Intend(n)) && ReduceIntend(s, n).Ok?
    ensures Inv(ReduceIntend(s, n).value)
  {
    var after := ReduceIntend(s, n).value;
    BatchAtOk(s, n.batchId);
    CompletedOnce(BatchAt(s, n.batchId).value.history);
    SameBatches(s, after);
    assert NoticeOk(s, n);
  }

  /** What a notice needs concerns only the batches. */
  lemma SameBatches(s: State, t: State)
    requires s.batches == t.batches
    ensures forall n :: NoticeOk(s, n) <==> NoticeOk(t, n)
  {
    forall n ensures NoticeOk(s, n) <==> NoticeOk(t, n) {
      assert BatchAt(s, n.batchId) == BatchAt(t, n.batchId);
    }
  }

  lemma {:induction false} CompletedOnce(history: seq<Entry>)
    requires Standing(history)
    ensures Completions(history) >= 1
  {
    if history[|history| - 1].change != Completed {
      CompletedOnce(history[..|history| - 1]);
    }
  }

  /** A digest belongs to one notice only. */
  lemma DigestUnique(s: State, i: nat, j: nat)
    requires NoticesOk(s) && i < |s.notices| && j < |s.notices| && s.notices[i].intentId == s.notices[j].intentId
    ensures i == j
  {
    assert NoticeOk(s, s.notices[i]) && NoticeOk(s, s.notices[j]);
    assert NoticeKey(s.notices[i]) == NoticeKey(s.notices[j]);
  }

  lemma ReceiveKeeps(s: State, intentId: IntentId, receipt: Text)
    requires Inv(s) && ReduceReceive(s, intentId, receipt).Ok?
    ensures Inv(ReduceReceive(s, intentId, receipt).value)
  {
    var at := Find(s.notices, NoticeId, intentId);
    if s.notices[at].receipt.None? {
      var after := ReduceReceive(s, intentId, receipt).value;
      forall i | 0 <= i < |after.notices|
        ensures NoticeOk(after, after.notices[i]) && NoticeKey(after.notices[i]) == NoticeKey(s.notices[i])
      {
        assert NoticeOk(s, s.notices[i]);
        assert BatchAt(after, after.notices[i].batchId) == BatchAt(s, after.notices[i].batchId);
        if s.notices[i].intentId == intentId {
          DigestUnique(s, i, at);
        }
      }
    }
  }

  lemma ApplyKeeps(s: State, e: Event)
    requires Inv(s) && Written(e) && Apply(s, e).Ok?
    ensures Inv(Apply(s, e).value)
  {
    match e {
      case Create(batch) => CreateKeeps(s, batch);
      case Subscribe(batchId, sub) => SubscribeKeeps(s, batchId, sub);
      case Observe(batchId, observations, at) => ObserveKeeps(s, batchId, observations, at);
      case Intend(n) => IntendKeeps(s, n);
      case Receive(intentId, receipt) => ReceiveKeeps(s, intentId, receipt);
    }
  }
}
