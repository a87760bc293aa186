/** Durable, ordered landing of a batch with bounded bisection. The class writes its snapshot through
    `Update`, which may stop the run with the write lost or kept; `log` records every event, so that
    the theorems about whole logs speak about every run of this class, restarts included. */
module GitMergeBatches {
  import opened Wrappers
  import opened MergeBatchModel
  import opened GitProvider

  // ----- Selections -----

  /** The submissions named by `ids`, in submission order. */
  function Select(submissions: seq<Submission>, ids: seq<SubmissionId>): seq<Submission> {
    if submissions == [] then []
    else var last := submissions[|submissions| - 1];
         Select(submissions[..|submissions| - 1], ids) + (if last.id in ids then [last] else [])
  }

  function Without(ids: seq<SubmissionId>, id: SubmissionId): (r: seq<SubmissionId>)
    ensures forall x :: x in r <==> x in ids && x != id
    ensures |r| <= |ids| && (id in ids ==> |r| < |ids|)
  {
    if ids == [] then []
    else (if ids[0] == id then [] else [ids[0]]) + Without(ids[1..], id)
  }

  /** Known identities in submission order. */
  ghost predicate Ordered(b: Batch, ids: seq<SubmissionId>) {
    && (forall i :: 0 <= i < |ids| ==> Member(b, ids[i]))
    && (forall i, j :: 0 <= i < j < |ids| ==> Position(b.submissions, ids[i]) < Position(b.submissions, ids[j]))
  }

  /** The identities climb under some numbering. */
  ghost predicate Climbs(place: SubmissionId -> nat, ids: seq<SubmissionId>) {
    forall i, j :: 0 <= i < j < |ids| ==> place(ids[i]) < place(ids[j])
  }

  lemma {:induction false} WithoutClimbs(place: SubmissionId -> nat, ids: seq<SubmissionId>, id: SubmissionId)
    requires Climbs(place, ids)
    ensures Climbs(place, Without(ids, id))
  {
    if ids != [] {
      assert forall x :: x in ids[1..] ==> place(ids[0]) < place(x);
      WithoutClimbs(place, ids[1..], id);
      assert forall x :: x in Without(ids[1..], id) ==> x in ids[1..];
    }
  }

  lemma WithoutOrdered(b: Batch, ids: seq<SubmissionId>, id: SubmissionId)
    requires Ordered(b, ids)
    ensures Ordered(b, Without(ids, id))
  {
    var place := (x: SubmissionId) => Position(b.submissions, x);
    WithoutClimbs(place, ids, id);
    var rest := Without(ids, id);
    forall i, j | 0 <= i < j < |rest|
      ensures Position(b.submissions, rest[i]) < Position(b.submissions, rest[j])
    {
      assert place(rest[i]) < place(rest[j]);
    }
    forall i | 0 <= i < |rest|
      ensures Member(b, rest[i])
    {
      assert rest[i] in ids;
    }
  }

  /** Selecting by an ordered list of identities gives exactly those submissions, in that order. */
  lemma SelectedAre(b: Batch, ids: seq<SubmissionId>)
    requires Admissible(b) && Ordered(b, ids)
    ensures var s := Select(b.submissions, ids);
            |s| == |ids| && forall i :: 0 <= i < |ids| ==> s[i] == Find(b, ids[i])
  {
    var c := SelectedPrefix(b, ids, |b.submissions|);
    assert b.submissions[..|b.submissions|] == b.submissions;
    assert c < |ids| ==> Member(b, ids[c]);
  }

  lemma {:induction false} SelectedPrefix(b: Batch, ids: seq<SubmissionId>, k: nat) returns (c: nat)
    requires Admissible(b) && Ordered(b, ids) && k <= |b.submissions|
    ensures c <= |ids|
    ensures forall i :: 0 <= i < |ids| ==> (i < c <==> Position(b.submissions, ids[i]) < k)
    ensures var s := Select(b.submissions[..k], ids);
            |s| == c && forall i :: 0 <= i < c ==> s[i] == Find(b, ids[i])
  {
    if k == 0 {
      c := 0;
    } else {
      c := SelectedPrefix(b, ids, k - 1);
      assert b.submissions[..k][..k - 1] == b.submissions[..k - 1];
      var last := b.submissions[k - 1];
      PrefixGrows(b, ids, k, c);
      if last.id in ids {
        c := c + 1;
      }
    }
  }

  /** The `k`-th submission is selected exactly when it is the next identity of the ordered list. */
  lemma PrefixGrows(b: Batch, ids: seq<SubmissionId>, k: nat, c: nat)
    requires Admissible(b) && Ordered(b, ids) && 0 < k <= |b.submissions| && c <= |ids|
    requires forall i :: 0 <= i < |ids| ==> (i < c <==> Position(b.submissions, ids[i]) < k - 1)
    ensures b.submissions[k - 1].id in ids ==> c < |ids| && ids[c] == b.submissions[k - 1].id
    ensures forall i :: 0 <= i < |ids| ==>
              (i < (if b.submissions[k - 1].id in ids then c + 1 else c) <==> Position(b.submissions, ids[i]) < k)
  {
    var id := b.submissions[k - 1].id;
    assert Position(b.submissions, id) == k - 1;
    forall i | 0 <= i < |ids|
      ensures ids[i] == id <==> Position(b.submissions, ids[i]) == k - 1
    {
      assert Member(b, ids[i]);
    }
  }

  function OutcomeOf(outcomes: map<SubmissionId, Outcome>, id: SubmissionId): Outcome {
    if id in outcomes then outcomes[id] else Blocked
  }

  /** A prerequisite that is omitted from the selection or already excluded holds a dependent back. */
  predicate HeldBackBy(d: SubmissionId, ids: seq<SubmissionId>, outcomes: map<SubmissionId, Outcome>) {
    OutcomeOf(outcomes, d) != Accepted && (d !in ids || Excluded(OutcomeOf(outcomes, d)))
  }

  function FirstHeldBack(selected: seq<Submission>, ids: seq<SubmissionId>,
          outcomes: map<SubmissionId, Outcome>): (k: nat)
    ensures k <= |selected|
    ensures k < |selected| ==> exists d :: d in selected[k].dependsOn && HeldBackBy(d, ids, outcomes)
    ensures forall i :: 0 <= i < k ==> forall d :: d in selected[i].dependsOn ==> !HeldBackBy(d, ids, outcomes)
  {
    if selected == [] then 0
    else if exists d :: d in selected[0].dependsOn && HeldBackBy(d, ids, outcomes) then 0
    else 1 + FirstHeldBack(selected[1..], ids, outcomes)
  }

  /** What one call may be given: pending, in order, every dependency settled or selected with it. */
  ghost predicate Selectable(b: Batch, s: BatchState, ids: seq<SubmissionId>) {
    && Ordered(b, ids) && s.prepared.None?
    && (forall id :: id in ids ==> PendingIn(s, id))
    && (forall id, d :: id in ids && d in Find(b, id).dependsOn ==>
          d in ids || (d in s.outcomes && Settled(s.outcomes[d])))
  }

  /** The pending submissions among the first `k`, in submission order. */
  function PendingIds(b: Batch, s: BatchState, k: nat): seq<SubmissionId>
    requires k <= |b.submissions|
  {
    if k == 0 then []
    else PendingIds(b, s, k - 1)
         + (if PendingIn(s, b.submissions[k - 1].id) then [b.submissions[k - 1].id] else [])
  }

  lemma PositionOf(b: Batch, i: nat)
    requires Admissible(b) && i < |b.submissions|
    ensures Position(b.submissions, b.submissions[i].id) == i
    ensures forall x :: Position(b.submissions, x) == i ==> x == b.submissions[i].id
  {
  }

  lemma OrderedAppend(b: Batch, ids: seq<SubmissionId>, id: SubmissionId)
    requires Ordered(b, ids) && Member(b, id)
    requires forall x :: x in ids ==> Position(b.submissions, x) < Position(b.submissions, id)
    ensures Ordered(b, ids + [id])
  {
    forall i, j | 0 <= i < j < |ids + [id]|
      ensures Position(b.submissions, (ids + [id])[i]) < Position(b.submissions, (ids + [id])[j])
    {
      assert (ids + [id])[i] == ids[i] && ids[i] in ids;
    }
  }

  lemma {:induction false} PendingAre(b: Batch, s: BatchState, k: nat)
    requires Admissible(b) && k <= |b.submissions|
    ensures Ordered(b, PendingIds(b, s, k))
    ensures forall id :: id in PendingIds(b, s, k) <==> Position(b.submissions, id) < k && PendingIn(s, id)
  {
    if k > 0 {
      PendingAre(b, s, k - 1);
      PositionOf(b, k - 1);
      if PendingIn(s, b.submissions[k - 1].id) {
        OrderedAppend(b, PendingIds(b, s, k - 1), b.submissions[k - 1].id);
      }
    }
  }

  lemma AllPendingSelectable(b: Batch, s: BatchState)
    requires Admissible(b) && Known(b, s) && s.prepared.None?
    ensures Selectable(b, s, PendingIds(b, s, |b.submissions|))
    ensures forall id :: id in s.outcomes && id !in PendingIds(b, s, |b.submissions|) ==> Settled(s.outcomes[id])
  {
    PendingAre(b, s, |b.submissions|);
    forall id, d | id in PendingIds(b, s, |b.submissions|) && d in Find(b, id).dependsOn
      ensures Member(b, d)
    {
      assert Find(b, id) == b.submissions[Position(b.submissions, id)];
    }
  }

  lemma {:induction false} FewerPending(b: Batch, s: BatchState, next: BatchState, k: nat)
    requires k <= |b.submissions| && forall id :: PendingIn(next, id) ==> PendingIn(s, id)
    ensures |PendingIds(b, next, k)| <= |PendingIds(b, s, k)|
  {
    if k > 0 {
      FewerPending(b, s, next, k - 1);
    }
  }

  // ----- Cost -----

  /** Attempts that settle `n` submissions when the target stays still. */
  function Cost(n: nat): nat { if n == 0 then 0 else 2 * n - 1 }

  /** What one isolation may do, whether it finishes or is stopped on the way. */
  ghost predicate Isolated(b: Batch, before: World, after: World, ids: seq<SubmissionId>, done: bool) {
    && (forall id :: id in before.durable.outcomes && id !in ids ==>
          id in after.durable.outcomes && after.durable.outcomes[id] == before.durable.outcomes[id])
    && before.refusals <= after.refusals
    && before.durable.attempts <= after.durable.attempts
         <= before.durable.attempts + Cost(|ids|) + (after.refusals - before.refusals)
    && after.verifies - before.verifies <= after.durable.attempts - before.durable.attempts
    && (before.durable.attempts + Cost(|ids|) + (after.refusals - before.refusals) <= b.policy.maxSplitAttempts ==>
          after.budgetBlocks == before.budgetBlocks)
    && (done ==> after.durable.prepared.None? && forall id :: id in ids ==>
          id in after.durable.outcomes && Settled(after.durable.outcomes[id]))
  }

  /** A submission set aside, then the rest. */
  lemma IsolatedAside(b: Batch, before: World, middle: World, after: World, ids: seq<SubmissionId>, id: SubmissionId,
          done: bool)
    requires id in ids && id in before.durable.outcomes
    requires middle.durable.outcomes == before.durable.outcomes[id := Blocked]
    requires middle.refusals == before.refusals && middle.budgetBlocks == before.budgetBlocks
    requires middle.verifies == before.verifies
    requires before.durable.attempts <= middle.durable.attempts <= before.durable.attempts + 1
    requires Isolated(b, middle, after, Without(ids, id), done)
    ensures Isolated(b, before, after, ids, done)
  {
    var rest := Without(ids, id);
    assert Cost(|rest|) + 1 <= Cost(|ids|);
    assert id in middle.durable.outcomes && id !in rest;
    forall x | x in before.durable.outcomes && x !in ids
      ensures x in after.durable.outcomes && after.durable.outcomes[x] == before.durable.outcomes[x]
    {
      assert x !in rest;
      assert x in middle.durable.outcomes;
    }
  }

  /** A failed stack: one attempt, then each half in turn. */
  lemma IsolatedHalves(b: Batch, before: World, failed: World, middle: World, after: World,
                       ids: seq<SubmissionId>, half: nat, done: bool)
    requires 0 < half < |ids| && (forall id :: id in ids ==> id in before.durable.outcomes)
    requires forall i, j :: 0 <= i < j < |ids| ==> ids[i] != ids[j]
    requires failed.durable.outcomes == before.durable.outcomes
    requires failed.refusals == before.refusals && failed.budgetBlocks == before.budgetBlocks
    requires failed.verifies == before.verifies + 1 && failed.durable.attempts == before.durable.attempts + 1
    requires Isolated(b, failed, middle, ids[..half], true)
    requires Isolated(b, middle, after, ids[half..], done)
    ensures Isolated(b, before, after, ids, done)
  {
    assert Cost(|ids[..half]|) + Cost(|ids[half..]|) + 1 <= Cost(|ids|);
    forall id | id in ids
      ensures id in ids[..half] || id in ids[half..]
      ensures id in ids[..half] ==> id !in ids[half..]
    {
    }
    forall x | x in before.durable.outcomes && x !in ids
      ensures x in after.durable.outcomes && after.durable.outcomes[x] == before.durable.outcomes[x]
    {
      assert x !in ids[..half] && x !in ids[half..];
    }
  }

  lemma SelectableWithout(b: Batch, s: BatchState, ids: seq<SubmissionId>, id: SubmissionId)
    requires Selectable(b, s, ids) && id in ids
    ensures Selectable(b, s.(outcomes := s.outcomes[id := Blocked]), Without(ids, id))
  {
    WithoutOrdered(b, ids, id);
  }

  /** A stretch of an ordered list is ordered. */
  lemma OrderedStretch(b: Batch, ids: seq<SubmissionId>, first: nat, end: nat)
    requires Ordered(b, ids) && first <= end <= |ids|
    ensures Ordered(b, ids[first..end])
  {
    var part := ids[first..end];
    forall i, j | 0 <= i < j < |part|
      ensures Position(b.submissions, part[i]) < Position(b.submissions, part[j])
    {
      assert part[i] == ids[first + i] && part[j] == ids[first + j];
    }
  }

  lemma SelectableFirst(b: Batch, s: BatchState, ids: seq<SubmissionId>, half: nat)
    requires Admissible(b) && Selectable(b, s, ids) && half <= |ids|
    ensures Selectable(b, s, ids[..half])
  {
    OrderedFirst(b, ids, half);
    FirstHalfCloses(b, s, ids, half);
  }

  lemma OrderedFirst(b: Batch, ids: seq<SubmissionId>, half: nat)
    requires Ordered(b, ids) && half <= |ids|
    ensures Ordered(b, ids[..half])
  {
    OrderedStretch(b, ids, 0, half);
    assert ids[0..half] == ids[..half];
  }

  lemma FirstHalfCloses(b: Batch, s: BatchState, ids: seq<SubmissionId>, half: nat)
    requires Admissible(b) && Selectable(b, s, ids) && half <= |ids|
    ensures forall id :: id in ids[..half] ==> Member(b, id) && PendingIn(s, id)
    ensures forall id, d :: id in ids[..half] && d in Find(b, id).dependsOn ==>
              d in ids[..half] || (d in s.outcomes && Settled(s.outcomes[d]))
  {
    forall id | id in ids[..half]
      ensures Member(b, id) && PendingIn(s, id)
    {
      assert id in ids;
    }
    forall id, d | id in ids[..half] && d in Find(b, id).dependsOn
      ensures d in ids[..half] || (d in s.outcomes && Settled(s.outcomes[d]))
    {
      DependenciesPrecede(b, ids, half, id, d);
    }
  }

  /** In submission order a selected dependency stands in the same half as its dependent, or before it. */
  lemma DependenciesPrecede(b: Batch, ids: seq<SubmissionId>, half: nat, id: SubmissionId, d: SubmissionId)
    requires Admissible(b) && Ordered(b, ids) && half <= |ids|
    requires id in ids[..half] && d in Find(b, id).dependsOn
    ensures d in ids ==> d in ids[..half]
  {
    if d in ids {
      var i :| 0 <= i < half && ids[i] == id;
      var j :| 0 <= j < |ids| && ids[j] == d;
      assert Find(b, id) == b.submissions[Position(b.submissions, id)];
      assert Position(b.submissions, d) < Position(b.submissions, id);
      assert j < i;
      assert ids[..half][j] == d;
    }
  }

  lemma SecondHalf(b: Batch, ids: seq<SubmissionId>, half: nat, id: SubmissionId)
    requires Ordered(b, ids) && half <= |ids| && id in ids
    ensures id in ids[half..] <==> id !in ids[..half]
  {
    var i :| 0 <= i < |ids| && ids[i] == id;
    if i < half {
      assert ids[..half][i] == id;
    } else {
      assert ids[half..][i - half] == id;
    }
  }

  lemma SelectableSecond(b: Batch, s: BatchState, next: BatchState, ids: seq<SubmissionId>, half: nat)
    requires Selectable(b, s, ids) && half <= |ids| && next.prepared.None?
    requires forall id :: id in s.outcomes && id !in ids[..half] ==>
               id in next.outcomes && next.outcomes[id] == s.outcomes[id]
    requires forall id :: id in ids[..half] ==> id in next.outcomes && Settled(next.outcomes[id])
    ensures Selectable(b, next, ids[half..])
  {
    OrderedStretch(b, ids, half, |ids|);
    forall id | id in ids[half..]
      ensures id in ids && PendingIn(next, id)
    {
      SecondHalf(b, ids, half, id);
    }
    forall id, d | id in ids[half..] && d in Find(b, id).dependsOn
      ensures d in ids[half..] || (d in next.outcomes && Settled(next.outcomes[d]))
    {
      if d in ids {
        SecondHalf(b, ids, half, d);
      }
    }
  }

  function BudgetBlocked(w: World, ids: seq<SubmissionId>, count: nat): World {
    w.(durable := w.durable.(outcomes :=
         map id | id in w.durable.outcomes :: if id in ids then Blocked else w.durable.outcomes[id]),
       budgetBlocks := w.budgetBlocks + count)
  }

  lemma BudgetStep(b: Batch, w: World, ids: seq<SubmissionId>, i: nat)
    requires Selectable(b, w.durable, ids) && i < |ids| && w.durable.attempts >= b.policy.maxSplitAttempts
    ensures Apply(b, BudgetBlocked(w, ids[..i], i), BlockBudget(ids[i])) == Some(BudgetBlocked(w, ids[..i + 1], i + 1))
    ensures BudgetBlocked(w, ids[..i + 1], i + 1).durable
         == var s := BudgetBlocked(w, ids[..i], i).durable; s.(outcomes := s.outcomes[ids[i] := Blocked])
  {
    assert PendingIn(w.durable, ids[i]);
    assert ids[i] !in ids[..i];
    assert forall x :: x in ids[..i + 1] <==> x in ids[..i] || x == ids[i];
    var before := BudgetBlocked(w, ids[..i], i);
    assert before.durable.outcomes[ids[i] := Blocked] == BudgetBlocked(w, ids[..i + 1], i + 1).durable.outcomes;
  }

  lemma BudgetIsolated(b: Batch, w: World, ids: seq<SubmissionId>, i: nat)
    requires Selectable(b, w.durable, ids) && ids != [] && i <= |ids|
    requires w.durable.attempts >= b.policy.maxSplitAttempts
    ensures Isolated(b, w, BudgetBlocked(w, ids[..i], i), ids, i == |ids|)
  {
  }

  function SourcesOf(selected: seq<Submission>): (r: seq<nat>)
    ensures |r| == |selected| && forall i :: 0 <= i < |r| ==> r[i] == selected[i].source
  {
    seq(|selected|, i requires 0 <= i < |selected| => selected[i].source)
  }

  lemma IsolatedFirstHalf(b: Batch, before: World, failed: World, after: World, ids: seq<SubmissionId>, half: nat)
    requires 0 < half < |ids| && Charged(before, failed, 1)
    requires Isolated(b, failed, after, ids[..half], false)
    ensures Isolated(b, before, after, ids, false)
  {
    assert Cost(half) + 1 <= Cost(|ids|);
    assert forall x :: x !in ids ==> x !in ids[..half];
  }

  /** A refused promotion: one attempt more than the second try needs. */
  lemma IsolatedAgain(b: Batch, before: World, middle: World, after: World, ids: seq<SubmissionId>, done: bool)
    requires middle.durable == before.durable.(attempts := before.durable.attempts + 1)
    requires middle.refusals == before.refusals + 1 && middle.budgetBlocks == before.budgetBlocks
    requires middle.verifies == before.verifies + 1
    requires Isolated(b, middle, after, ids, done)
    ensures Isolated(b, before, after, ids, done)
  {
  }

  /** A landed stack, or one left for the next run to land. */
  lemma LandedIsolated(b: Batch, before: World, after: World, ids: seq<SubmissionId>, done: bool)
    requires ids != [] && after.durable.attempts == before.durable.attempts + 1
    requires after.verifies == before.verifies + 1 && after.budgetBlocks == before.budgetBlocks
    requires before.refusals <= after.refusals && forall id :: id in ids ==> id in before.durable.outcomes
    requires after.durable.outcomes == before.durable.outcomes
             || after.durable.outcomes == Accepting(before.durable, ids)
    requires done ==> after.durable.prepared.None? && after.durable.outcomes == Accepting(before.durable, ids)
    ensures Isolated(b, before, after, ids, done)
  {
  }

  ghost predicate SelectedFor(b: Batch, ids: seq<SubmissionId>, selected: seq<Submission>) {
    && Ordered(b, ids) && |selected| == |ids|
    && forall i :: 0 <= i < |ids| ==> selected[i] == Find(b, ids[i])
  }

  lemma SourcesAre(b: Batch, ids: seq<SubmissionId>, selected: seq<Submission>)
    requires SelectedFor(b, ids, selected)
    ensures (set s | s in SourcesOf(selected)) == Sources(b, ids)
  {
    forall s | s in Sources(b, ids)
      ensures s in SourcesOf(selected)
    {
      var i :| 0 <= i < |ids| && Find(b, ids[i]).source == s;
      assert SourcesOf(selected)[i] == s;
    }
  }

  /** Every receipt proven present covers the recorded receipts of the whole selection. */
  lemma ReceiptsProven(b: Batch, s: BatchState, ids: seq<SubmissionId>, selected: seq<Submission>, target: Commit)
    requires SelectedFor(b, ids, selected)
    requires forall i, p | 0 <= i < |selected| && Member(b, selected[i].id)
                           && p in Prerequisites(b, s, selected[i].id) ::
               p.source in target.history
    ensures Receipts(b, ids) <= target.history
  {
    forall id, p | id in ids && Member(b, id) && p in Find(b, id).acceptedPrerequisites
      ensures p.source in target.history
    {
      var i :| 0 <= i < |ids| && ids[i] == id;
      assert p in Prerequisites(b, s, selected[i].id);
    }
  }

  /** Settling `n` pending submissions while the branch refuses `m` promotions takes at most 2n - 1 + m
      checks, and with that much budget left nothing is blocked for budget. */
  ghost predicate Bounded(b: Batch, before: World, after: World, n: nat) {
    var m := after.refusals - before.refusals;
    && after.verifies - before.verifies <= after.durable.attempts - before.durable.attempts <= Cost(n) + m
    && (before.durable.attempts + Cost(n) + m <= b.policy.maxSplitAttempts ==>
          after.budgetBlocks == before.budgetBlocks)
  }

  lemma IsolatedBounded(b: Batch, before: World, middle: World, after: World, ids: seq<SubmissionId>, n: nat,
          done: bool)
    requires |ids| <= n && Isolated(b, middle, after, ids, done)
    requires middle.durable.attempts == before.durable.attempts && middle.verifies == before.verifies
    requires middle.budgetBlocks == before.budgetBlocks && before.refusals <= middle.refusals
    ensures Bounded(b, before, after, n)
    ensures done && (forall id :: id in middle.durable.outcomes && id !in ids ==>
                       Settled(middle.durable.outcomes[id])) ==>
              forall id :: id in middle.durable.outcomes ==>
                id in after.durable.outcomes && Settled(after.durable.outcomes[id])
  {
  }

  /** What one attempt at a stack found. */
  datatype Attempted = Halted | Absent(id: SubmissionId, receipt: Prerequisite) | Refuted | Composed(prepared: Prepared)

  /** One charged attempt and nothing settled; `checks` counts its composition check. */
  ghost predicate Charged(before: World, after: World, checks: nat) {
    && after.durable == before.durable.(attempts := before.durable.attempts + 1)
    && after.refusals == before.refusals && after.budgetBlocks == before.budgetBlocks
    && after.verifies == before.verifies + checks
  }

  /** Nothing settled and no check made; at most one attempt charged. */
  ghost predicate Untouched(before: World, after: World) {
    && after.durable.outcomes == before.durable.outcomes
    && before.durable.attempts <= after.durable.attempts <= before.durable.attempts + 1
    && after.refusals == before.refusals && after.budgetBlocks == before.budgetBlocks
    && after.verifies == before.verifies
  }

  lemma UntouchedIsolated(b: Batch, before: World, after: World, ids: seq<SubmissionId>)
    requires Untouched(before, after) && ids != []
    ensures Isolated(b, before, after, ids, false)
    ensures forall id :: id in ids ==> Isolated(b, before, WithOutcome(after, id, Blocked), ids, false)
  {
  }

  class GitMergeBatch {
    const batch: Batch
    const provider: GitIntegrationProvider
    var state: BatchState
    ghost const start: Commit
    ghost var log: seq<Event>
    ghost var w: World

    ghost predicate Valid()
      reads this, provider
    {
      && Legal(batch, start, log) && Exec(batch, start, log) == Some(w) && Inv(batch, w)
      && state == w.durable && provider.branch == w.target
    }

    /** A new journal holding the creation snapshot. */
    constructor (batch: Batch, provider: GitIntegrationProvider)
      requires Admissible(batch)
      ensures Valid() && this.batch == batch && this.provider == provider
      ensures fresh(this) && log == [] && state == Initial(batch)
    {
      this.batch, this.provider := batch, provider;
      this.state := Initial(batch);
      this.start, this.log := provider.branch, [];
      this.w := Start(batch, provider.branch);
      new;
      StartKeeps(batch, start);
    }

    /** Record one event in the ghost log. */
    ghost method Emit(e: Event)
      requires Legal(batch, start, log) && Exec(batch, start, log) == Some(w) && Inv(batch, w)
      requires Apply(batch, w, e).Some?
      modifies this`log, this`w
      ensures Legal(batch, start, log) && Exec(batch, start, log) == Some(w) && Inv(batch, w)
      ensures log == old(log) + [e] && Apply(batch, old(w), e) == Some(w)
    {
      ApplyKeeps(batch, w, e);
      log := log + [e];
      assert log[..|log| - 1] == old(log);
      w := Apply(batch, w, e).value;
    }

    /** Append the next snapshot. When it reports failure the record may still have become durable. */
    method Update(next: BatchState, ghost e: Event) returns (ok: bool)
      requires Valid() && Apply(batch, w, e).Some?
      requires Apply(batch, w, e).value.durable == next && Apply(batch, w, e).value.target == w.target
      modifies this`state, this`log, this`w
      ensures Valid() && old(log) <= log
      ensures ok ==> Apply(batch, old(w), e) == Some(w)
      ensures !ok ==> w == old(w) || Apply(batch, old(w), e) == Some(w)
    {
      ok := *;
      if !ok {
        var lost: bool := *;
        if lost {
          return;
        }
      }
      Emit(e);
      state := next;
    }

    // ----- Environment steps -----

    /** Read the branch that the next composition starts from. */
    method ReadTarget() returns (target: Option<Commit>)
      requires Valid()
      modifies this`log, this`w, provider
      ensures Valid() && old(log) <= log
      ensures w == old(w).(target := w.target, read := w.read, check := w.check)
      ensures target.Some? ==> w.read == target
    {
      target := provider.Target();
      Emit(Foreign(provider.branch));
      if target.Some? {
        Emit(TargetRead);
      }
    }

    /** The first receipt that the target does not prove; serial, one command each. */
    method FirstUnproven(receipts: seq<Prerequisite>, target: Commit) returns (k: nat)
      ensures k <= |receipts|
      ensures k == |receipts| ==> forall j :: 0 <= j < |receipts| ==> receipts[j].source in target.history
    {
      for j := 0 to |receipts|
        invariant forall i :: 0 <= i < j ==> receipts[i].source in target.history
      {
        var contained := provider.Contains(target, receipts[j].source);
        if !contained {
          return j;
        }
      }
      k := |receipts|;
    }

    /** Check that the target contains every receipt the selection relies on. */
    method MissingReceipt(selected: seq<Submission>, target: Commit)
      returns (missing: Option<(SubmissionId, Prerequisite)>)
      requires forall i :: 0 <= i < |selected| ==> Member(batch, selected[i].id)
      ensures missing.Some? ==>
                exists i | 0 <= i < |selected| ::
                  selected[i].id == missing.value.0 && missing.value.1 in Prerequisites(batch, state, selected[i].id)
      ensures missing.None? ==>
                forall i, p | 0 <= i < |selected| && p in Prerequisites(batch, state, selected[i].id) ::
                  p.source in target.history
    {
      for i := 0 to |selected|
        invariant forall k, p | 0 <= k < i && p in Prerequisites(batch, state, selected[k].id) ::
                    p.source in target.history
      {
        var receipts := Prerequisites(batch, state, selected[i].id);
        var k := FirstUnproven(receipts, target);
        if k < |receipts| {
          return Some((selected[i].id, receipts[k]));
        }
      }
      missing := None;
    }

    /** Block what is left once the split budget is spent, one record at a time. */
    method BlockForBudget(ids: seq<SubmissionId>) returns (done: bool)
      requires Valid() && Selectable(batch, state, ids) && ids != []
      requires state.attempts >= batch.policy.maxSplitAttempts
      modifies this`state, this`log, this`w
      ensures Valid() && old(log) <= log
      ensures Isolated(batch, old(w), w, ids, done)
    {
      ghost var before := w;
      for i := 0 to |ids|
        invariant Valid() && old(log) <= log
        invariant w == BudgetBlocked(before, ids[..i], i)
      {
        BudgetStep(batch, before, ids, i);
        BudgetIsolated(batch, before, ids, i);
        BudgetIsolated(batch, before, ids, i + 1);
        var ok := Update(state.(outcomes := state.outcomes[ids[i] := Blocked]), BlockBudget(ids[i]));
        if !ok {
          return false;
        }
      }
      BudgetIsolated(batch, before, ids, |ids|);
      done := true;
    }

    // ----- Landing -----

    /** Ask Git to move the branch to the prepared candidate, and log what the branch did. */
    method Push() returns (result: Promotion)
      requires Valid() && state.prepared.Some?
      modifies this`log, this`w, provider
      ensures Valid() && old(log) <= log
      ensures w.durable == old(w).durable && w.verifies == old(w).verifies && w.budgetBlocks == old(w).budgetBlocks
      ensures w.refusals == old(w).refusals + (if result == TargetMoved then 1 else 0)
      ensures result == Done ==> w.landed
      ensures result == TargetMoved ==> w.refused
    {
      var p := state.prepared.value;
      ghost var seen, met;
      result, seen, met := provider.Promote(p.target, p.candidate);
      Emit(Foreign(seen));
      if result == TargetMoved {
        Emit(Refuse);
        return;
      }
      if seen == p.target != p.candidate {
        Emit(TargetChecked);
      }
      LogMove(p, met, provider.branch, result == Done);
    }

    /** Log what the fast-forward did with the branch it met. */
    ghost method LogMove(p: Prepared, met: Commit, after: Commit, done: bool)
      requires Legal(batch, start, log) && Exec(batch, start, log) == Some(w) && Inv(batch, w)
      requires w.durable.prepared == Some(p) && Forward(w.target, met)
      requires after == met || (w.checked && met != p.candidate && Forward(met, p.candidate) && after == p.candidate)
      requires done && after == met ==> met == p.candidate || (w.checked && p.candidate.history <= met.history)
      modifies this`log, this`w
      ensures Legal(batch, start, log) && Exec(batch, start, log) == Some(w) && Inv(batch, w)
      ensures old(log) <= log && w.target == after && (done ==> w.landed)
      ensures w.durable == old(w).durable && w.verifies == old(w).verifies
      ensures w.refusals == old(w).refusals && w.budgetBlocks == old(w).budgetBlocks
    {
      Emit(Foreign(met));
      if after != met {
        Emit(Promote);
      } else if done {
        Emit(AlreadyPromoted);
      }
    }

    /** Move the branch to the prepared candidate, then accept its submissions; drop the record when
        the branch has moved on; otherwise leave everything for the next run to replay. */
    method Land() returns (result: Promotion)
      requires Valid() && state.prepared.Some?
      modifies this`state, this`log, this`w, provider
      ensures Valid() && old(log) <= log
      ensures state.attempts == old(state).attempts && w.verifies == old(w).verifies
      ensures w.budgetBlocks == old(w).budgetBlocks
      ensures old(w).refusals <= w.refusals <= old(w).refusals + 1
      ensures result == Done ==>
                w.refusals == old(w).refusals && state.prepared.None?
                && state.outcomes == Accepting(old(state), old(state).prepared.value.ids)
      ensures result == TargetMoved ==> w.refusals == old(w).refusals + 1 && state == old(state).(prepared := None)
      ensures state.outcomes == old(state).outcomes
           || state.outcomes == Accepting(old(state), old(state).prepared.value.ids)
    {
      result := Push();
      if result == TargetMoved {
        var ok := Update(state.(prepared := None), Drop);
        result := if ok then TargetMoved else Failed;
      } else if result == Done {
        var p := state.prepared.value;
        var next := state.(outcomes := Accepting(state, p.ids), prepared := None,
                           promotedCandidates := state.promotedCandidates + [p.candidate]);
        var ok := Update(next, Accept);
        result := if ok then Done else Failed;
      }
    }

    // ----- Bisection -----

    /** Check the whole stack in a new checkout of the target just read. */
    method CheckStack(ids: seq<SubmissionId>, selected: seq<Submission>, target: Commit)
      returns (candidate: Option<Commit>)
      requires Valid() && SelectedFor(batch, ids, selected) && w.directory && w.read == Some(target)
      requires Receipts(batch, ids) <= target.history
      modifies this`log, this`w
      ensures Valid() && old(log) <= log
      ensures w == old(w).(directory := false, check := Some(Check(ids, target, candidate)),
                           verifies := old(w).verifies + 1)
    {
      candidate := provider.VerifyStack(SourcesOf(selected), target);
      SourcesAre(batch, ids, selected);
      Emit(Verified(ids, candidate));
    }

    /** Charge one attempt and read the branch. */
    method Charge() returns (target: Option<Commit>)
      requires Valid() && state.attempts < batch.policy.maxSplitAttempts && state.prepared.None?
      modifies this`state, this`log, this`w, provider
      ensures Valid() && old(log) <= log
      ensures state == old(state) || state == old(state).(attempts := old(state).attempts + 1)
      ensures target.None? ==> Untouched(old(w), w)
      ensures target.Some? ==> Charged(old(w), w, 0) && w.directory && w.read == target
    {
      var ok := Update(state.(attempts := state.attempts + 1), Attempt);
      if !ok {
        return None;
      }
      target := ReadTarget();
    }

    /** Charge one attempt, read the branch, prove the receipts, and check the stack. */
    method TryStack(ids: seq<SubmissionId>, selected: seq<Submission>) returns (r: Attempted)
      requires Valid() && Selectable(batch, state, ids) && ids != [] && SelectedFor(batch, ids, selected)
      requires FirstHeldBack(selected, ids, state.outcomes) == |selected|
      requires state.attempts < batch.policy.maxSplitAttempts
      modifies this`state, this`log, this`w, provider
      ensures Valid() && old(log) <= log
      ensures state == old(state) || state == old(state).(attempts := old(state).attempts + 1)
      ensures r.Halted? ==> Untouched(old(w), w)
      ensures r.Absent? ==> Charged(old(w), w, 0)
      ensures r.Refuted? || r.Composed? ==> Charged(old(w), w, 1)
      ensures r.Absent? ==>
                r.id in ids && Apply(batch, w, BlockAbsent(r.id, r.receipt)) == Some(WithOutcome(w, r.id, Blocked))
      ensures r.Refuted? ==> w.check.Some? && w.check.value.ids == ids && w.check.value.candidate.None?
      ensures r.Composed? ==> r.prepared.ids == ids && MayPrepare(batch, w, r.prepared)
    {
      ghost var before := state;
      var target := Charge();
      if target.None? {
        return Halted;
      }
      var missing := MissingReceipt(selected, target.value);
      if missing.Some? {
        AbsentBlocks(batch, w, ids, missing.value.0, missing.value.1);
        return Absent(missing.value.0, missing.value.1);
      }
      ReceiptsProven(batch, state, ids, selected, target.value);
      var candidate := CheckStack(ids, selected, target.value);
      if candidate.None? {
        return Refuted;
      }
      r := Composed(Prepared(ids, target.value, candidate.value));
      ComposedMayPrepare(batch, before, w, ids, selected, r.prepared);
    }

    /** Settle the pending submissions `ids` by bisection. Each call charges an attempt or drops a
        submission, so it terminates whatever Git and the other pushers do. */
    method Isolate(ids: seq<SubmissionId>) returns (done: bool)
      requires Valid() && Selectable(batch, state, ids)
      modifies this`state, this`log, this`w, provider
      ensures Valid() && old(log) <= log
      ensures Isolated(batch, old(w), w, ids, done)
      decreases batch.policy.maxSplitAttempts - state.attempts, |ids|, 1
    {
      ghost var before := w;
      if ids == [] {
        return true;
      }
      var selected := Select(batch.submissions, ids);
      SelectedAre(batch, ids);
      var held := FirstHeldBack(selected, ids, state.outcomes);
      if held < |selected| {
        ghost var d := HeldBackOver(batch, w, ids, selected, held);
        done := SetAside(ids, selected[held].id, BlockExcluded(selected[held].id, d), before);
      } else if state.attempts >= batch.policy.maxSplitAttempts {
        done := BlockForBudget(ids);
      } else {
        done := TryAndSettle(ids, selected);
      }
    }

    /** One charged attempt and what follows from its result. */
    method TryAndSettle(ids: seq<SubmissionId>, selected: seq<Submission>) returns (done: bool)
      requires Valid() && Selectable(batch, state, ids) && ids != [] && SelectedFor(batch, ids, selected)
      requires FirstHeldBack(selected, ids, state.outcomes) == |selected|
      requires state.attempts < batch.policy.maxSplitAttempts
      modifies this`state, this`log, this`w, provider
      ensures Valid() && old(log) <= log
      ensures Isolated(batch, old(w), w, ids, done)
      decreases batch.policy.maxSplitAttempts - state.attempts, |ids|, 0
    {
      ghost var before := w;
      var tried := TryStack(ids, selected);
      match tried {
        case Halted =>
          UntouchedIsolated(batch, before, w, ids);
          done := false;
        case Absent(id, receipt) =>
          done := SetAside(ids, id, BlockAbsent(id, receipt), before);
        case Refuted =>
          done := Split(ids, before);
        case Composed(prepared) =>
          done := LandComposed(ids, prepared, before);
      }
    }

    /** Block one submission and go on without it. */
    method SetAside(ids: seq<SubmissionId>, id: SubmissionId, ghost e: Event, ghost before: World) returns (done: bool)
      requires Valid() && Selectable(batch, state, ids) && id in ids
      requires Untouched(before, w)
      requires Apply(batch, w, e) == Some(WithOutcome(w, id, Blocked))
      modifies this`state, this`log, this`w, provider
      ensures Valid() && old(log) <= log
      ensures Isolated(batch, before, w, ids, done)
      decreases batch.policy.maxSplitAttempts - state.attempts, |ids|, 0
    {
      SelectableWithout(batch, state, ids, id);
      UntouchedIsolated(batch, before, w, ids);
      var ok := Update(state.(outcomes := state.outcomes[id := Blocked]), e);
      if !ok {
        return false;
      }
      ghost var middle := w;
      done := Isolate(Without(ids, id));
      IsolatedAside(batch, before, middle, w, ids, id, done);
    }

    /** A stack that failed its checks: a single submission is rejected, a longer one is halved. */
    method Split(ids: seq<SubmissionId>, ghost before: World) returns (done: bool)
      requires Valid() && Selectable(batch, state, ids) && ids != [] && Charged(before, w, 1)
      requires w.check.Some? && w.check.value.ids == ids && w.check.value.candidate.None?
      modifies this`state, this`log, this`w, provider
      ensures Valid() && old(log) <= log
      ensures Isolated(batch, before, w, ids, done)
      decreases batch.policy.maxSplitAttempts - state.attempts, |ids|, 2
    {
      if |ids| == 1 {
        assert ids == [ids[0]];
        done := Update(state.(outcomes := state.outcomes[ids[0] := Rejected]), Reject(ids[0]));
        return;
      }
      ghost var failed, opening := w, state;
      var half := (|ids| + 1) / 2;
      SelectableFirst(batch, state, ids, half);
      done := Isolate(ids[..half]);
      if !done {
        IsolatedFirstHalf(batch, before, failed, w, ids, half);
        return;
      }
      ghost var middle := w;
      SelectableSecond(batch, opening, state, ids, half);
      done := Isolate(ids[half..]);
      IsolatedHalves(batch, before, failed, middle, w, ids, half, done);
    }

    /** A stack that passed: write the prepared record, land it, and start over when the branch has moved. */
    method LandComposed(ids: seq<SubmissionId>, prepared: Prepared, ghost before: World) returns (done: bool)
      requires Valid() && Selectable(batch, state, ids) && ids != [] && Charged(before, w, 1)
      requires prepared.ids == ids && MayPrepare(batch, w, prepared)
      modifies this`state, this`log, this`w, provider
      ensures Valid() && old(log) <= log
      ensures Isolated(batch, before, w, ids, done)
      decreases batch.policy.maxSplitAttempts - state.attempts, |ids|, 2
    {
      var ok := Update(state.(prepared := Some(prepared)), Prepare(prepared));
      if !ok {
        return false;
      }
      var landing := Land();
      if landing == TargetMoved {
        ghost var middle := w;
        done := Isolate(ids);
        IsolatedAgain(batch, before, middle, w, ids, done);
      } else {
        done := landing == Done;
        LandedIsolated(batch, before, w, ids, done);
      }
    }

    /** A new run remembers nothing; a prepared promotion left by an earlier one lands exactly its own
        submissions, or is dropped because the branch has moved past it. */
    method Replay() returns (ok: bool)
      requires Valid()
      modifies this`state, this`log, this`w, provider
      ensures Valid() && old(log) <= log
      ensures state.attempts == old(state).attempts && w.verifies == old(w).verifies
      ensures w.budgetBlocks == old(w).budgetBlocks && old(w).refusals <= w.refusals
      ensures ok ==> state.prepared.None?
      ensures state.outcomes == old(state).outcomes
           || (old(state).prepared.Some? && state.outcomes == Accepting(old(state), old(state).prepared.value.ids))
    {
      Emit(Restart);
      ok := true;
      if state.prepared.Some? {
        var landing := Land();
        ok := landing != Failed;
      }
    }

    /** Replay a prepared promotion left by an earlier run, then settle everything still pending. */
    method Run() returns (done: bool)
      requires Valid()
      modifies this`state, this`log, this`w, provider
      ensures Valid() && old(log) <= log
      ensures done ==> state.prepared.None? && forall id :: id in state.outcomes ==> Settled(state.outcomes[id])
      ensures Bounded(batch, old(w), w, |PendingIds(batch, old(state), |batch.submissions|)|)
    {
      var replayed := Replay();
      if !replayed {
        return false;
      }
      FewerPending(batch, old(state), state, |batch.submissions|);
      AllPendingSelectable(batch, state);
      ghost var middle := w;
      var pending := PendingIds(batch, state, |batch.submissions|);
      done := Isolate(pending);
      IsolatedBounded(batch, old(w), middle, w, pending, |PendingIds(batch, old(state), |batch.submissions|)|, done);
    }

    /** What the whole-run theorems say of this object at any moment between two of its calls. */
    lemma SafeAtAnyMoment(i: nat, id: SubmissionId)
      requires Valid() && i <= |log| && Member(batch, id)
      requires id in At(batch, start, log, i).durable.outcomes && Settled(At(batch, start, log, i).durable.outcomes[id])
      ensures id in state.outcomes && state.outcomes[id] == At(batch, start, log, i).durable.outcomes[id]
      ensures state.outcomes[id] == Accepted ==>
                Find(batch, id).source in provider.branch.history
                && forall d :: d in Find(batch, id).dependsOn ==> d in state.outcomes && state.outcomes[d] == Accepted
      ensures w.verifies == Checks(log) <= state.attempts <= batch.policy.maxSplitAttempts
    {
      assert log[..|log|] == log;
      SettledForever(batch, start, log, i, |log|, id);
      ChecksWithinBudget(batch, start, log);
    }
  }

  lemma ComposedMayPrepare(b: Batch, before: BatchState, w: World, ids: seq<SubmissionId>, selected: seq<Submission>,
          p: Prepared)
    requires Selectable(b, before, ids) && SelectedFor(b, ids, selected)
    requires FirstHeldBack(selected, ids, before.outcomes) == |selected|
    requires w.durable.outcomes == before.outcomes && w.durable.prepared.None? && p.ids == ids
    requires w.check == Some(Check(p.ids, p.target, Some(p.candidate)))
    ensures MayPrepare(b, w, p)
  {
    NoneHeldBack(b, before, ids, selected);
  }

  lemma AbsentBlocks(b: Batch, w: World, ids: seq<SubmissionId>, id: SubmissionId, receipt: Prerequisite)
    requires Selectable(b, w.durable, ids) && w.read.Some? && id in ids
    requires receipt in Prerequisites(b, w.durable, id)
    ensures Apply(b, w, BlockAbsent(id, receipt)) == Some(WithOutcome(w, id, Blocked))
  {
  }

  lemma ExcludedBlocks(b: Batch, w: World, ids: seq<SubmissionId>, id: SubmissionId, d: SubmissionId)
    requires Selectable(b, w.durable, ids) && id in ids && d in Find(b, id).dependsOn
    requires d in w.durable.outcomes && Excluded(w.durable.outcomes[d])
    ensures Apply(b, w, BlockExcluded(id, d)) == Some(WithOutcome(w, id, Blocked))
  {
  }

  lemma HeldBackExcluded(b: Batch, s: BatchState, ids: seq<SubmissionId>, id: SubmissionId, d: SubmissionId)
    requires Selectable(b, s, ids) && id in ids && d in Find(b, id).dependsOn && HeldBackBy(d, ids, s.outcomes)
    ensures d in s.outcomes && Excluded(s.outcomes[d])
  {
  }

  /** What holds a selected submission back is rejected or blocked; it is never merely pending. */
  lemma HeldBackOver(b: Batch, w: World, ids: seq<SubmissionId>, selected: seq<Submission>, k: nat)
    returns (d: SubmissionId)
    requires Selectable(b, w.durable, ids) && SelectedFor(b, ids, selected) && k < |selected|
    requires FirstHeldBack(selected, ids, w.durable.outcomes) == k
    ensures selected[k].id in ids
    ensures d in selected[k].dependsOn && d in w.durable.outcomes && Excluded(w.durable.outcomes[d])
    ensures Apply(b, w, BlockExcluded(selected[k].id, d)) == Some(WithOutcome(w, selected[k].id, Blocked))
  {
    d :| d in selected[k].dependsOn && HeldBackBy(d, ids, w.durable.outcomes);
    assert selected[k].id == ids[k];
    HeldBackExcluded(b, w.durable, ids, ids[k], d);
    ExcludedBlocks(b, w, ids, ids[k], d);
  }

  /** With nobody held back, the selection and what is already accepted are closed under dependency. */
  lemma NoneHeldBack(b: Batch, s: BatchState, ids: seq<SubmissionId>, selected: seq<Submission>)
    requires Selectable(b, s, ids) && SelectedFor(b, ids, selected)
    requires FirstHeldBack(selected, ids, s.outcomes) == |selected|
    ensures forall id :: id in ids ==> forall d :: d in Find(b, id).dependsOn ==>
              d in ids || (d in s.outcomes && s.outcomes[d] == Accepted)
  {
    forall id, d | id in ids && d in Find(b, id).dependsOn
      ensures d in ids || (d in s.outcomes && s.outcomes[d] == Accepted)
    {
      var i :| 0 <= i < |ids| && ids[i] == id;
      assert !HeldBackBy(d, ids, s.outcomes) by {
        assert d in selected[i].dependsOn;
      }
    }
  }

  // ----- The diagnostic of a held-back submission -----

  /** The prerequisite the diagnostic names: the first one that is not accepted. */
  function Named(dependsOn: seq<SubmissionId>, outcomes: map<SubmissionId, Outcome>): (k: nat)
    ensures k <= |dependsOn|
    ensures k < |dependsOn| ==> OutcomeOf(outcomes, dependsOn[k]) != Accepted
    ensures forall i :: 0 <= i < k ==> OutcomeOf(outcomes, dependsOn[i]) == Accepted
  {
    if dependsOn == [] then 0
    else if OutcomeOf(outcomes, dependsOn[0]) != Accepted then 0
    else 1 + Named(dependsOn[1..], outcomes)
  }

  /** It names an excluded prerequisite exactly when no pending one is listed before the first excluded one. */
  lemma DiagnosticNamesExcluded(dependsOn: seq<SubmissionId>, outcomes: map<SubmissionId, Outcome>, first: nat)
    requires first < |dependsOn| && Excluded(OutcomeOf(outcomes, dependsOn[first]))
    requires forall i :: 0 <= i < first ==> !Excluded(OutcomeOf(outcomes, dependsOn[i]))
    ensures var n := Named(dependsOn, outcomes);
      n < |dependsOn| && (Excluded(OutcomeOf(outcomes, dependsOn[n])) <==>
                          forall i :: 0 <= i < first ==> OutcomeOf(outcomes, dependsOn[i]) != Pending)
  {
    assert Named(dependsOn, outcomes) <= first;
  }

  function Example(): Batch {
    Batch([Submission("broken", 1, [], []), Submission("lib", 2, [], []),
           Submission("dependent", 3, ["lib", "broken"], [])],
          Policy(3, 9))
  }

  lemma ExamplePositions()
    ensures Position(Example().submissions, "broken") == 0
    ensures Position(Example().submissions, "lib") == 1
    ensures Position(Example().submissions, "dependent") == 2
  {
    var s := Example().submissions;
    assert |"lib"| == 3 && |"broken"| == 6 && |"dependent"| == 9;
    assert s[0].id == "broken" && s[1].id == "lib" && s[2].id == "dependent";
  }

  lemma ExampleAdmissible()
    ensures Admissible(Example())
  {
    ExamplePositions();
  }

  /** One charged attempt whose check fails. */
  function Failing(ids: seq<SubmissionId>): seq<Event> {
    [Attempt, TargetRead, Verified(ids, None)]
  }

  /** The bisection of the example when every stack with "broken" in it fails, up to the moment "broken" is rejected
      alone: all three, then the first two, then "broken". */
  const REJECTED: seq<Event> :=
    Failing(["broken", "lib", "dependent"]) + Failing(["broken", "lib"]) + Failing(["broken"]) + [Reject("broken")]

  lemma NoReceipts(ids: seq<SubmissionId>)
    ensures Receipts(Example(), ids) == {}
  {
    forall id | id in ids && Member(Example(), id)
      ensures Find(Example(), id).acceptedPrerequisites == []
    {
      assert Find(Example(), id) in Example().submissions;
    }
  }

  function AfterFailing(w: World, ids: seq<SubmissionId>): World {
    w.(durable := w.durable.(attempts := w.durable.attempts + 1), directory := false, read := Some(w.target),
       check := Some(Check(ids, w.target, None)), verifies := w.verifies + 1)
  }

  lemma ExecFailing(target: Commit, log: seq<Event>, w: World, ids: seq<SubmissionId>)
    requires Exec(Example(), target, log) == Some(w) && w.durable.attempts < 9 && w.durable.prepared.None?
    ensures Exec(Example(), target, log + Failing(ids)) == Some(AfterFailing(w, ids))
  {
    NoReceipts(ids);
    var b := Example();
    ExecOne(b, target, log, w, Attempt);
    var charged := Apply(b, w, Attempt).value;
    ExecOne(b, target, log + [Attempt], charged, TargetRead);
    var read := Apply(b, charged, TargetRead).value;
    ExecOne(b, target, log + [Attempt] + [TargetRead], read, Verified(ids, None));
    assert log + Failing(ids) == log + [Attempt] + [TargetRead] + [Verified(ids, None)];
  }

  lemma ThreeFailures(target: Commit) returns (w: World)
    ensures Exec(Example(), target,
                 Failing(["broken", "lib", "dependent"]) + Failing(["broken", "lib"]) + Failing(["broken"]))
         == Some(w)
    ensures w.durable == Initial(Example()).(attempts := 3) && w.check == Some(Check(["broken"], target, None))
  {
    var all: seq<SubmissionId>, two: seq<SubmissionId>, one: seq<SubmissionId> :=
      ["broken", "lib", "dependent"], ["broken", "lib"], ["broken"];
    var first := AfterFailing(Start(Example(), target), all);
    ExecFailing(target, [], Start(Example(), target), all);
    assert [] + Failing(all) == Failing(all);
    ExecFailing(target, Failing(all), first, two);
    ExecFailing(target, Failing(all) + Failing(two), AfterFailing(first, two), one);
    w := AfterFailing(AfterFailing(first, two), one);
  }

  /** The snapshot that this history leaves. */
  lemma ExampleReached(target: Commit)
    ensures Exec(Example(), target, REJECTED).Some?
    ensures Exec(Example(), target, REJECTED).value.durable
         == BatchState(3, map["broken" := Rejected, "lib" := Pending, "dependent" := Pending], None, [])
  {
    var w := ThreeFailures(target);
    InitialExample();
    var log := Failing(["broken", "lib", "dependent"]) + Failing(["broken", "lib"]) + Failing(["broken"]);
    ExecOne(Example(), target, log, w, Reject("broken"));
    assert REJECTED == log + [Reject("broken")];
  }

  lemma InitialExample()
    ensures Initial(Example())
         == BatchState(0, map["broken" := Pending, "lib" := Pending, "dependent" := Pending], None, [])
  {
    var s := Example().submissions;
    assert s[0].id == "broken" && s[1].id == "lib" && s[2].id == "dependent";
  }

  lemma ExampleSelectable(s: BatchState)
    requires s.outcomes == map["broken" := Rejected, "lib" := Pending, "dependent" := Pending] && s.prepared.None?
    ensures Selectable(Example(), s, ["lib", "dependent"])
  {
    ExamplePositions();
    var b, ids: seq<SubmissionId> := Example(), ["lib", "dependent"];
    assert Find(b, ids[0]).dependsOn == [] && Find(b, ids[1]).dependsOn == ["lib", "broken"];
    assert Ordered(b, ids);
  }

  lemma ExamplePending(s: BatchState)
    requires s.outcomes == map["broken" := Rejected, "lib" := Pending, "dependent" := Pending]
    ensures PendingIds(Example(), s, 3) == ["lib", "dependent"]
  {
    var b := Example();
    assert b.submissions[0].id == "broken" && b.submissions[1].id == "lib" && b.submissions[2].id == "dependent";
    assert PendingIds(b, s, 0) == [] && PendingIds(b, s, 1) == [] && PendingIds(b, s, 2) == ["lib"];
  }

  /** Otherwise it blames a submission that is still pending and may yet land. A run that stops right after
      rejecting "broken" leaves the two others to the next run, which holds "dependent" back over "broken" and names
      "lib". */
  lemma DiagnosticMayNamePending(target: Commit)
    ensures Admissible(Example()) && Exec(Example(), target, REJECTED).Some?
    ensures Member(Example(), "dependent")
    ensures var s := Exec(Example(), target, REJECTED).value.durable;
      && PendingIds(Example(), s, 3) == ["lib", "dependent"] && Selectable(Example(), s, ["lib", "dependent"])
      && HeldBackBy("broken", ["lib", "dependent"], s.outcomes)
      && Named(Find(Example(), "dependent").dependsOn, s.outcomes) == 0
      && Find(Example(), "dependent").dependsOn[0] == "lib" && s.outcomes["lib"] == Pending
  {
    ExampleAdmissible();
    ExampleReached(target);
    ExamplePositions();
    ExampleSelectable(Exec(Example(), target, REJECTED).value.durable);
    ExamplePending(Exec(Example(), target, REJECTED).value.durable);
  }
}
