/** Where a promotion starts. The check of the target and the fast-forward are separate commands, so others may push
    in between: what the protocol promises about its moves, and when a move starts at the very target that was
    checked. */
module BranchMoves {
  import opened Wrappers
  import opened MergeBatchModel

  lemma ApplyChecked(b: Batch, w: World, e: Event)
    requires Apply(b, w, e).Some? && Apply(b, w, e).value.checked
    ensures Apply(b, w, e).value.durable.prepared == w.durable.prepared && !e.Promote?
    ensures w.checked || (e == TargetChecked && w.durable.prepared.Some? && w.target == w.durable.prepared.value.target)
  {
  }

  /** A check in force was made earlier in this log, of the same prepared record, and has held ever since. */
  ghost predicate CheckedSince(b: Batch, target: Commit, log: seq<Event>, c: nat, i: nat)
    requires Legal(b, target, log) && c < i <= |log|
  {
    var w := At(b, target, log, c);
    && log[c] == TargetChecked && w.durable.prepared.Some? && w.target == w.durable.prepared.value.target
    && forall m | c < m <= i :: At(b, target, log, m).checked
                                && At(b, target, log, m).durable.prepared == w.durable.prepared
  }

  lemma {:induction false} CheckInForce(b: Batch, target: Commit, log: seq<Event>, i: nat) returns (c: nat)
    requires Legal(b, target, log) && i <= |log| && At(b, target, log, i).checked
    ensures c < i && CheckedSince(b, target, log, c, i)
  {
    assert i > 0;
    AtStep(b, target, log, i - 1);
    ApplyChecked(b, At(b, target, log, i - 1), log[i - 1]);
    if At(b, target, log, i - 1).checked {
      c := CheckInForce(b, target, log, i - 1);
    } else {
      c := i - 1;
    }
  }

  // ----- A branch that only moves forward never returns -----

  ghost predicate MovesAt(b: Batch, target: Commit, log: seq<Event>, m: nat)
    requires Legal(b, target, log) && m < |log|
  {
    At(b, target, log, m).target != At(b, target, log, m + 1).target
  }

  lemma StepForward(b: Batch, target: Commit, log: seq<Event>, m: nat)
    requires Legal(b, target, log) && m < |log|
    ensures Forward(At(b, target, log, m).target, At(b, target, log, m + 1).target)
  {
    AtStep(b, target, log, m);
    ApplyForward(b, At(b, target, log, m), log[m]);
  }

  /** What contains a commit that the branch did not contain before is none of the earlier commits. */
  lemma Apart(earlier: Commit, before: Commit, after: Commit)
    requires earlier.history <= before.history && Forward(before, after) && before != after
    ensures earlier != after
  {
  }

  ghost predicate Unmoved(b: Batch, target: Commit, log: seq<Event>, c: nat, i: nat)
    requires Legal(b, target, log) && c <= i <= |log|
  {
    forall m | c <= m < i :: !MovesAt(b, target, log, m)
  }

  lemma {:induction false} NeverReturns(b: Batch, target: Commit, log: seq<Event>, c: nat, i: nat)
    requires Legal(b, target, log) && c <= i <= |log|
    ensures At(b, target, log, c).target == At(b, target, log, i).target
       <==> Unmoved(b, target, log, c, i)
    decreases i
  {
    if c < i {
      NeverReturns(b, target, log, c, i - 1);
      StepForward(b, target, log, i - 1);
      SettledForever(b, target, log, c, i - 1, "");
      if MovesAt(b, target, log, i - 1) {
        Apart(At(b, target, log, c).target, At(b, target, log, i - 1).target, At(b, target, log, i).target);
      }
    }
  }

  // ----- Where a promotion starts -----

  ghost predicate Pushed(b: Batch, target: Commit, log: seq<Event>, m: nat)
    requires Legal(b, target, log) && m < |log|
  {
    log[m].Foreign? && MovesAt(b, target, log, m)
  }

  lemma OnlyPushes(b: Batch, target: Commit, log: seq<Event>, c: nat, i: nat, m: nat)
    requires Legal(b, target, log) && c <= m < i <= |log| && CheckedSince(b, target, log, c, i)
    ensures MovesAt(b, target, log, m) <==> m > c && Pushed(b, target, log, m)
  {
    AtStep(b, target, log, m);
    ApplyChecked(b, At(b, target, log, m), log[m]);
    if MovesAt(b, target, log, m) && !log[m].Foreign? {
      ApplyTarget(b, At(b, target, log, m), log[m]);
    }
  }

  /** Every promotion follows a check that found the branch at the recorded target. It starts there itself if and
      only if nobody pushed in between; otherwise it starts at what was pushed, which the candidate contains. */
  lemma MoveStartsAtTarget(b: Batch, target: Commit, log: seq<Event>, i: nat) returns (c: nat)
    requires Legal(b, target, log) && i < |log| && log[i].Promote?
    ensures c < i && CheckedSince(b, target, log, c, i)
    ensures At(b, target, log, i).durable.prepared == At(b, target, log, c).durable.prepared
    ensures var p := At(b, target, log, c).durable.prepared.value;
      && Forward(At(b, target, log, i).target, p.candidate) && At(b, target, log, i + 1).target == p.candidate
      && (At(b, target, log, i).target == p.target <==> forall m | c < m < i :: !Pushed(b, target, log, m))
  {
    AtStep(b, target, log, i);
    c := CheckInForce(b, target, log, i);
    NeverReturns(b, target, log, c, i);
    forall m | c <= m < i
      ensures MovesAt(b, target, log, m) <==> m > c && Pushed(b, target, log, m)
    {
      OnlyPushes(b, target, log, c, i, m);
    }
  }

  // ----- Pushes behind the check -----

  /** The world once the prepared submissions are accepted with the branch at `t`. */
  function AcceptedOn(w: World, p: Prepared, t: Commit, moves: seq<Commit>): World {
    w.(durable := w.durable.(outcomes := Accepting(w.durable, p.ids), prepared := None,
                             promotedCandidates := w.durable.promotedCandidates + [p.candidate]),
       target := t, checked := false, landed := false, refused := false, moves := moves)
  }

  ghost predicate JustChecked(b: Batch, target: Commit, log: seq<Event>, w: World, p: Prepared) {
    Exec(b, target, log) == Some(w) && w.checked && w.durable.prepared == Some(p)
  }

  lemma PushBehindCheck(b: Batch, target: Commit, log: seq<Event>, w: World, p: Prepared, t: Commit)
    requires JustChecked(b, target, log, w, p) && Forward(w.target, t)
    ensures JustChecked(b, target, log + [Foreign(t)], w.(target := t), p)
  {
    ExecOne(b, target, log, w, Foreign(t));
  }

  /** A push behind the check of something the candidate contains: the fast-forward succeeds from there. */
  lemma PushedBefore(b: Batch, target: Commit, log: seq<Event>, w: World, p: Prepared, t: Commit)
    requires JustChecked(b, target, log, w, p)
    requires Forward(w.target, t) && t != p.candidate && Forward(t, p.candidate)
    ensures Exec(b, target, log + [Foreign(t), Promote, Accept])
         == Some(AcceptedOn(w, p, p.candidate, w.moves + [p.candidate]))
  {
    PushBehindCheck(b, target, log, w, p, t);
    var pushed := w.(target := t);
    ExecOne(b, target, log + [Foreign(t)], pushed, Promote);
    ExecOne(b, target, log + [Foreign(t)] + [Promote], Apply(b, pushed, Promote).value, Accept);
    assert log + [Foreign(t), Promote, Accept] == log + [Foreign(t)] + [Promote] + [Accept];
  }

  /** A push behind the check of something that contains the candidate: there is nothing to do, and the submissions
      are accepted on a branch that holds more than was verified. */
  lemma PushedPast(b: Batch, target: Commit, log: seq<Event>, w: World, p: Prepared, t: Commit)
    requires JustChecked(b, target, log, w, p) && Forward(w.target, t) && p.candidate.history <= t.history
    ensures Exec(b, target, log + [Foreign(t), AlreadyPromoted, Accept]) == Some(AcceptedOn(w, p, t, w.moves))
  {
    PushBehindCheck(b, target, log, w, p, t);
    var pushed := w.(target := t);
    ExecOne(b, target, log + [Foreign(t)], pushed, AlreadyPromoted);
    ExecOne(b, target, log + [Foreign(t)] + [AlreadyPromoted], pushed.(landed := true), Accept);
    assert log + [Foreign(t), AlreadyPromoted, Accept] == log + [Foreign(t)] + [AlreadyPromoted] + [Accept];
  }

  /** A push behind the check of anything else: the promotion fails without saying that the target moved, and the
      record waits for the next run to find that out. */
  lemma PushedBeside(b: Batch, target: Commit, log: seq<Event>, w: World, p: Prepared, t: Commit)
    requires JustChecked(b, target, log, w, p) && Forward(w.target, t)
    requires !Forward(t, p.candidate) && !(p.candidate.history <= t.history) && t != p.target
    ensures JustChecked(b, target, log + [Foreign(t)], w.(target := t), p)
    ensures Apply(b, w.(target := t), Promote).None? && Apply(b, w.(target := t), AlreadyPromoted).None?
    ensures Exec(b, target, log + [Foreign(t)] + [Restart] + [Refuse] + [Drop]).Some?
    ensures Exec(b, target, log + [Foreign(t)] + [Restart] + [Refuse] + [Drop]).value.durable
         == w.durable.(prepared := None)
  {
    PushBehindCheck(b, target, log, w, p, t);
    var pushed := w.(target := t);
    ExecOne(b, target, log + [Foreign(t)], pushed, Restart);
    var restarted := Apply(b, pushed, Restart).value;
    ExecOne(b, target, log + [Foreign(t)] + [Restart], restarted, Refuse);
    ExecOne(b, target, log + [Foreign(t)] + [Restart] + [Refuse], Apply(b, restarted, Refuse).value, Drop);
  }

  // ----- A batch in which all three can happen -----

  const BASE := Commit(0, {0})
  const FIRST := Commit(1, {0, 1})
  const STACK := Commit(3, {0, 1, 2, 3})
  const PAST := Commit(4, {0, 1, 2, 3, 4})
  const ASIDE := Commit(5, {0, 5})

  const PAIR := Batch([Submission("first", 1, [], []), Submission("second", 2, [], [])], Policy(2, 1))

  const BOTH: seq<SubmissionId> := ["first", "second"]

  const COMPOSED := Prepared(BOTH, BASE, STACK)

  lemma PairFacts()
    ensures Admissible(PAIR) && Member(PAIR, "first") && Member(PAIR, "second")
    ensures Find(PAIR, "first") == PAIR.submissions[0] && Find(PAIR, "second") == PAIR.submissions[1]
  {
    var s := PAIR.submissions;
    assert |"first"| == 5 && |"second"| == 6;
    assert s[0].id == "first" && s[1].id == "second";
    assert Position(s, "first") == 0 && Position(s, "second") == 1;
  }

  lemma PairSources()
    ensures Sources(PAIR, BOTH) == {1, 2} && Receipts(PAIR, BOTH) == {}
  {
    PairFacts();
    assert BOTH[0] == "first" && BOTH[1] == "second";
    assert Find(PAIR, BOTH[0]).source == 1 && Find(PAIR, BOTH[1]).source == 2;
  }

  lemma PairInitial()
    ensures "first" in Initial(PAIR).outcomes && Initial(PAIR).outcomes["first"] == Pending
    ensures "second" in Initial(PAIR).outcomes && Initial(PAIR).outcomes["second"] == Pending
  {
    assert PAIR.submissions[0].id == "first" && PAIR.submissions[1].id == "second";
  }

  /** Both submissions have been composed on `BASE`, and the record is written. */
  function Composed(): World {
    Start(PAIR, BASE).(durable := Initial(PAIR).(attempts := 1, prepared := Some(COMPOSED)), read := Some(BASE),
                       check := Some(Check(BOTH, BASE, Some(STACK))), verifies := 1)
  }

  /** The first attempt is charged, and the branch has been read. */
  function Charged(): World {
    Start(PAIR, BASE).(durable := Initial(PAIR).(attempts := 1), directory := true, read := Some(BASE))
  }

  lemma PairCharged()
    ensures Exec(PAIR, BASE, [Attempt] + [TargetRead]) == Some(Charged())
  {
    ExecOne(PAIR, BASE, [], Start(PAIR, BASE), Attempt);
    assert [] + [Attempt] == [Attempt];
    ExecOne(PAIR, BASE, [Attempt], Charged().(read := None), TargetRead);
  }

  lemma PairVerified()
    ensures Apply(PAIR, Charged(), Verified(BOTH, Some(STACK)))
         == Some(Composed().(durable := Initial(PAIR).(attempts := 1)))
  {
    PairSources();
  }

  lemma PairChecked()
    ensures Exec(PAIR, BASE, [Attempt] + [TargetRead] + [Verified(BOTH, Some(STACK))])
         == Some(Composed().(durable := Initial(PAIR).(attempts := 1)))
  {
    PairCharged();
    PairVerified();
    ExecOne(PAIR, BASE, [Attempt] + [TargetRead], Charged(), Verified(BOTH, Some(STACK)));
  }

  lemma PairPrepares()
    ensures MayPrepare(PAIR, Composed().(durable := Initial(PAIR).(attempts := 1)), COMPOSED)
  {
    PairFacts();
    PairInitial();
  }

  /** The history up to the moment the promotion has found the branch at the recorded target. */
  const CHECKED: seq<Event> :=
    [Attempt] + [TargetRead] + [Verified(BOTH, Some(STACK))] + [Prepare(COMPOSED)] + [TargetChecked]

  lemma PairJustChecked()
    ensures JustChecked(PAIR, BASE, CHECKED, Composed().(checked := true), COMPOSED)
  {
    PairChecked();
    PairPrepares();
    var log := [Attempt] + [TargetRead] + [Verified(BOTH, Some(STACK))];
    ExecOne(PAIR, BASE, log, Composed().(durable := Initial(PAIR).(attempts := 1)), Prepare(COMPOSED));
    ExecOne(PAIR, BASE, log + [Prepare(COMPOSED)], Composed(), TargetChecked);
  }

  /** The three pushes are possible: the promotion that follows starts at `FIRST` instead of the checked `BASE`,
      accepts on `PAST` instead of the verified `STACK`, or fails on `ASIDE`. */
  lemma PushesBehindCheck()
    ensures Admissible(PAIR) && BASE != FIRST && STACK != PAST
    ensures var log := CHECKED + [Foreign(FIRST)];
      Exec(PAIR, BASE, log).Some? && Exec(PAIR, BASE, log).value.target == FIRST
    ensures var log := CHECKED + [Foreign(FIRST), Promote, Accept];
      Exec(PAIR, BASE, log).Some? && Exec(PAIR, BASE, log).value.target == STACK
    ensures var log := CHECKED + [Foreign(PAST), AlreadyPromoted, Accept];
      Exec(PAIR, BASE, log).Some? && Exec(PAIR, BASE, log).value.target == PAST
    ensures var log := CHECKED + [Foreign(ASIDE)];
      && Exec(PAIR, BASE, log).Some? && Exec(PAIR, BASE, log).value.target == ASIDE
      && Exec(PAIR, BASE, log + [Promote]).None? && Exec(PAIR, BASE, log + [AlreadyPromoted]).None?
  {
    PairFacts();
    PairJustChecked();
    var w := Composed().(checked := true);
    PushBehindCheck(PAIR, BASE, CHECKED, w, COMPOSED, FIRST);
    PushedBefore(PAIR, BASE, CHECKED, w, COMPOSED, FIRST);
    PushedPast(PAIR, BASE, CHECKED, w, COMPOSED, PAST);
    PushedBeside(PAIR, BASE, CHECKED, w, COMPOSED, ASIDE);
    ExecOne(PAIR, BASE, CHECKED + [Foreign(ASIDE)], w.(target := ASIDE), Promote);
    ExecOne(PAIR, BASE, CHECKED + [Foreign(ASIDE)], w.(target := ASIDE), AlreadyPromoted);
  }
}
