/** The Git contract the merge batch relies on. Git itself, and everyone else pushing to the same
    branch, is the environment: it may refuse any command, and the branch may move forward at any time. */
module GitProvider {
  import opened Wrappers
  import opened MergeBatchModel

  datatype Promotion = Done | TargetMoved | Failed

  lemma ForwardTransitive(a: Commit, b: Commit, c: Commit)
    requires Forward(a, b) && Forward(b, c)
    ensures Forward(a, c)
  {
  }

  class GitIntegrationProvider {
    var branch: Commit

    constructor (branch: Commit)
      ensures this.branch == branch
    {
      this.branch := branch;
    }

    /** Somebody else's pushes. */
    method Elsewhere()
      modifies this
      ensures Forward(old(branch), branch)
    {
      var pushed: Commit := *;
      if Forward(branch, pushed) {
        branch := pushed;
      }
    }

    method Target() returns (target: Option<Commit>)
      modifies this
      ensures Forward(old(branch), branch)
      ensures target.Some? ==> target.value == branch
    {
      Elsewhere();
      var failed: bool := *;
      target := if failed then None else Some(branch);
    }

    /** A positive answer is a proof of ancestry; any command error reads as a negative one. */
    method Contains(target: Commit, source: nat) returns (contained: bool)
      ensures contained ==> source in target.history
    {
      var failed: bool := *;
      contained := !failed && source in target.history;
    }

    /** Merge one source into a checkout: nothing to do, a later commit, or a conflict. */
    method Merge(head: Commit, source: nat) returns (merged: Option<Commit>)
      ensures merged.Some? ==> Forward(head, merged.value) && source in merged.value.history
      ensures merged.Some? && source in head.history ==> merged.value == head
    {
      var conflict: bool := *;
      if conflict {
        return None;
      }
      if source in head.history {
        return Some(head);
      }
      var commit: Commit := *;
      merged := if Forward(head, commit) && source in commit.history then Some(commit) else None;
    }

    /** Merge the sources in order onto the target, run every check, and require an unchanged clean tree. */
    method VerifyStack(sources: seq<nat>, target: Commit) returns (candidate: Option<Commit>)
      ensures candidate.Some? ==> Composes(target, (set s | s in sources), candidate.value)
      ensures candidate.Some? ==> sources != [] && forall i, j :: 0 <= i < j < |sources| ==> sources[i] != sources[j]
    {
      if sources == [] || exists i, j :: 0 <= i < j < |sources| && sources[i] == sources[j] {
        return None;
      }
      var head := target;
      for i := 0 to |sources|
        invariant Composes(target, (set s | s in sources[..i]), head)
      {
        var merged := Merge(head, sources[i]);
        if merged.None? {
          return None;
        }
        ForwardTransitive(target, head, merged.value);
        head := merged.value;
      }
      assert sources[..|sources|] == sources;
      var failed: bool := *;
      candidate := if failed then None else Some(head);
    }

    /** Check that the branch is still the target a candidate was verified against, then fast-forward it to the
        candidate. The check and the fast-forward are separate commands, and others may push in between: `seen` is
        the branch when it was checked, `met` the branch that the fast-forward met. A command that fails may still
        have moved the branch. */
    method Promote(target: Commit, candidate: Commit) returns (result: Promotion, ghost seen: Commit, ghost met: Commit)
      modifies this
      ensures Forward(old(branch), seen) && Forward(seen, met)
      ensures result == TargetMoved ==> seen != target && seen != candidate
      ensures result == Done ==> seen == target || seen == candidate
      ensures result == TargetMoved || seen == candidate ==> branch == met == seen
      ensures branch == met || (seen == target && met != candidate && Forward(met, candidate) && branch == candidate)
      ensures result == Done && branch == met ==> candidate.history <= met.history
    {
      var current := Target();
      seen, met := branch, branch;
      if current.None? {
        return Failed, seen, met;
      }
      if branch == candidate {
        return Done, seen, met;
      }
      if branch != target {
        return TargetMoved, seen, met;
      }
      Elsewhere();
      met := branch;
      var dirty: bool := *;
      if dirty {
        return Failed, seen, met;
      }
      result := FastForward(candidate);
    }

    /** Nothing to do when the branch contains the candidate already, an error when neither contains the other. */
    method FastForward(candidate: Commit) returns (result: Promotion)
      modifies this
      ensures result == Done || result == Failed
      ensures branch == old(branch)
              || (old(branch) != candidate && Forward(old(branch), candidate) && branch == candidate)
      ensures result == Done && branch == old(branch) ==> candidate.history <= branch.history
      ensures !Forward(old(branch), candidate) && !(candidate.history <= old(branch).history) ==> result == Failed
    {
      var unmoved: bool := *;
      if unmoved {
        return Failed;
      }
      if candidate.history <= branch.history {
        return Done;
      }
      if !Forward(branch, candidate) {
        return Failed;
      }
      branch := candidate;
      var interrupted: bool := *;
      result := if interrupted then Failed else Done;
    }
  }
}
