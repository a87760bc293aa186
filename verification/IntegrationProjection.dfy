/** Durable integrations: which snapshots may follow each other, and what an accepted history guarantees. */
module IntegrationProjections {
  import opened Wrappers
  import opened Identities
  import opened Keyed

  type Commit = Text

  const MAX_RETRIES := 3

  /** A host's authorization of one exact candidate. */
  datatype Receipt = Receipt(
    integrationId: Text,
    sourceCommit: Commit,
    targetCommit: Commit,
    candidateCommit: Commit,
    reviewGate: Text,
    reviewId: Text)

  /** A verified candidate that a moving target made obsolete; its checkout is retained. */
  datatype Candidate = Candidate(
    cwd: Text,
    targetCommit: Commit,
    candidateCommit: Commit,
    error: Text,
    receipt: Option<Receipt>)

  datatype External = External(runtimeId: Text, repository: Text, cwd: Text, branch: Text, baseCommit: Commit)

  datatype Phase = Queued | Running | Verified | Merged | Failed

  datatype Job = Job(
    id: Text,
    memberId: Text,
    provider: Text,
    external: Option<External>,
    repository: Text,
    cwd: Text,
    sourceBranch: Text,
    sourceCommit: Commit,
    targetBranch: Text,
    verification: seq<Text>,
    reviewGate: Option<Text>,
    receipt: Option<Receipt>,
    verificationFailed: bool,
    previous: Option<seq<Candidate>>,
    phase: Phase,
    targetCommit: Option<Commit>,
    candidateCommit: Option<Commit>,
    error: Option<Text>)
  {
    function History(): seq<Candidate> {
      if previous.Some? then previous.value else []
    }

    /** The directory of the first candidate. */
    function Base(): Text {
      if History() == [] then cwd else History()[0].cwd
    }

    predicate Terminal() {
      phase == Merged || phase == Failed
    }

    predicate Owns(dir: Text) {
      dir == cwd || exists k :: 0 <= k < |History()| && History()[k].cwd == dir
    }
  }

  function RetryDirectory(base: Text, n: nat): Text
    requires 1 <= n <= MAX_RETRIES
  {
    base + ".retry-" + (if n == 1 then "1" else if n == 2 then "2" else "3")
  }

  function DirectoryAt(base: Text, n: nat): Text
    requires n <= MAX_RETRIES
  {
    if n == 0 then base else RetryDirectory(base, n)
  }

  // ----- The transition check -----

  predicate IsRetry(prior: Option<Job>, next: Job) {
    prior.Some? && prior.value.phase == Verified && next.phase == Queued
  }

  predicate IsApproval(prior: Option<Job>, next: Job) {
    prior.Some? && prior.value.phase == Verified && next.phase == Verified && prior.value.receipt.None?
    && next.receipt.Some?
  }

  predicate PhaseAllowed(prior: Option<Job>, next: Job) {
    match prior
    case None => next.phase == Queued
    case Some(p) =>
      match p.phase
      case Queued => next.phase == Running || next.phase == Failed
      case Running => next.phase == Verified || next.phase == Failed
      case Verified => next.phase == Merged || next.phase == Failed || IsRetry(prior, next) || IsApproval(prior, next)
      case _ => false
  }

  predicate SameInputs(prior: Job, next: Job) {
    && prior.id == next.id && prior.memberId == next.memberId && prior.provider == next.provider
    && prior.repository == next.repository && prior.sourceBranch == next.sourceBranch
    && prior.sourceCommit == next.sourceCommit
    && prior.targetBranch == next.targetBranch && prior.reviewGate == next.reviewGate && prior.external == next.external
    && prior.verification == next.verification
  }

  /** The verified candidate that a retry leaves behind, and why. */
  function Superseded(j: Job, error: Text): Candidate
    requires j.targetCommit.Some? && j.candidateCommit.Some?
  {
    Candidate(j.cwd, j.targetCommit.value, j.candidateCommit.value, error, j.receipt)
  }

  predicate RetriesAfter(prior: Job, next: Job) {
    && |prior.History()| < MAX_RETRIES && prior.targetCommit.Some? && prior.candidateCommit.Some?
    && next.previous.Some? && next.previous.value != []
    && var error := next.previous.value[|next.previous.value| - 1].error;
    && next.previous.value == prior.History() + [Superseded(prior, error)]
    && next.cwd == RetryDirectory(prior.Base(), |prior.History()| + 1)
  }

  predicate KeepsRecorded(prior: Job, next: Job, approval: bool) {
    && (prior.targetCommit.Some? ==> prior.targetCommit == next.targetCommit)
    && (prior.candidateCommit.Some? ==> prior.candidateCommit == next.candidateCommit)
    && (!approval ==> prior.receipt == next.receipt)
  }

  predicate Binds(r: Receipt, j: Job) {
    && j.reviewGate == Some(r.reviewGate) && r.integrationId == j.id && r.sourceCommit == j.sourceCommit
    && j.targetCommit == Some(r.targetCommit) && j.candidateCommit == Some(r.candidateCommit)
  }

  predicate PhaseFields(j: Job) {
    && (j.phase == Running || j.phase == Verified || j.phase == Merged ==> j.targetCommit.Some?)
    && (j.phase == Verified || j.phase == Merged ==> j.candidateCommit.Some?)
    && (j.phase == Queued || j.phase == Running ==> j.candidateCommit.None?)
    && (j.phase == Queued ==> j.targetCommit.None?)
    && (j.phase == Failed <==> j.error.Some?)
  }

  predicate ReceiptOk(j: Job) {
    && (j.receipt.Some? ==> Binds(j.receipt.value, j))
    && (j.phase == Queued || j.phase == Running ==> j.receipt.None?)
    && (j.phase == Merged && j.reviewGate.Some? ==> j.receipt.Some?)
  }

  predicate Transition(prior: Option<Job>, next: Job) {
    && PhaseAllowed(prior, next)
    && (prior.Some? ==>
          && SameInputs(prior.value, next)
          && (if IsRetry(prior, next) then RetriesAfter(prior.value, next)
              else prior.value.cwd == next.cwd && prior.value.previous == next.previous
                   && KeepsRecorded(prior.value, next, IsApproval(prior, next))))
    && (next.verificationFailed ==> next.phase == Failed && prior.Some? && prior.value.phase == Running)
    && (prior.None? ==> next.previous.None?)
    && ReceiptOk(next) && PhaseFields(next)
  }

  // ----- The projection -----

  /** The persisted form: errors are never empty and the history never exceeds its limit. */
  predicate WellFormed(j: Job) {
    && (j.error.Some? ==> j.error.value != [])
    && (j.previous.Some? ==>
          |j.previous.value| <= MAX_RETRIES && forall k :: 0 <= k < |j.previous.value| ==>
            j.previous.value[k].error != [])
  }

  datatype Workspace = Workspace(memberId: Text, repository: Text, branch: Text)

  predicate HasWorkspace(workspaces: set<Workspace>, j: Job) {
    if j.external.Some? then
      && j.memberId == j.external.value.runtimeId && j.repository == j.external.value.repository
      && j.sourceBranch == j.external.value.branch
    else Workspace(j.memberId, j.repository, j.sourceBranch) in workspaces
  }

  function JobId(j: Job): Text {
    j.id
  }

  function JobAt(jobs: seq<Job>, id: Text): Option<Job> {
    var i := Find(jobs, JobId, id);
    if i < |jobs| then Some(jobs[i]) else None
  }

  predicate DirectoryTaken(jobs: seq<Job>, id: Text, cwd: Text) {
    exists i :: 0 <= i < |jobs| && jobs[i].id != id && jobs[i].Owns(cwd)
  }

  predicate Accepted(jobs: seq<Job>, workspaces: set<Workspace>, j: Job) {
    WellFormed(j) && HasWorkspace(workspaces, j) && !DirectoryTaken(jobs, j.id, j.cwd)
    && Transition(JobAt(jobs, j.id), j)
  }

  // ----- Every reachable state -----

  /** A retained candidate's own review, if it had one, was for exactly that candidate. */
  predicate CandidateOk(c: Candidate, j: Job) {
    c.receipt.Some? ==>
      && j.reviewGate == Some(c.receipt.value.reviewGate) && c.receipt.value.integrationId == j.id
      && c.receipt.value.sourceCommit == j.sourceCommit
      && c.receipt.value.targetCommit == c.targetCommit && c.receipt.value.candidateCommit == c.candidateCommit
  }

  predicate JobOk(j: Job) {
    && WellFormed(j) && ReceiptOk(j) && PhaseFields(j) && |j.History()| <= MAX_RETRIES
    && (j.verificationFailed ==> j.phase == Failed)
    && j.cwd == DirectoryAt(j.Base(), |j.History()|)
    && (forall k :: 0 <= k < |j.History()| ==> j.History()[k].cwd == DirectoryAt(j.Base(), k))
    && (forall k :: 0 <= k < |j.History()| ==> CandidateOk(j.History()[k], j))
  }

  predicate Apart(a: Job, b: Job) {
    !b.Owns(a.cwd) && forall k :: 0 <= k < |a.History()| ==> !b.Owns(a.History()[k].cwd)
  }

  /** No two jobs ever own one candidate directory, retained ones included. */
  predicate Inv(jobs: seq<Job>) {
    && Unique(jobs, JobId)
    && (forall i :: 0 <= i < |jobs| ==> JobOk(jobs[i]))
    && (forall i, j :: 0 <= i < |jobs| && 0 <= j < |jobs| && i != j ==> Apart(jobs[i], jobs[j]))
  }

  lemma NextOk(prior: Option<Job>, next: Job)
    requires prior.Some? ==> JobOk(prior.value)
    requires WellFormed(next) && Transition(prior, next)
    ensures JobOk(next)
  {
    if IsRetry(prior, next) {
      var p := prior.value;
      assert next.History() == next.previous.value && |next.History()| == |p.History()| + 1;
      assert next.Base() == p.Base();
      forall k | 0 <= k < |next.History()|
        ensures next.History()[k].cwd == DirectoryAt(next.Base(), k) && CandidateOk(next.History()[k], next)
      {
        if k < |p.History()| {
          assert next.History()[k] == p.History()[k] && CandidateOk(p.History()[k], p);
        }
      }
    }
  }

  lemma NextOwns(prior: Option<Job>, next: Job, dir: Text)
    requires Transition(prior, next) && next.Owns(dir)
    ensures dir == next.cwd || (prior.Some? && prior.value.Owns(dir))
  {
    if dir != next.cwd {
      var k :| 0 <= k < |next.History()| && next.History()[k].cwd == dir;
      if IsRetry(prior, next) {
        if k < |prior.value.History()| {
          assert next.History()[k] == prior.value.History()[k];
        } else {
          assert next.History()[k].cwd == prior.value.cwd;
        }
      } else {
        assert prior.Some? && next.History()[k] == prior.value.History()[k];
      }
    }
  }

  lemma ApartSwaps(a: Job, b: Job)
    requires Apart(a, b)
    ensures Apart(b, a)
  {
    if a.Owns(b.cwd) {
      assert b.Owns(b.cwd);
    }
    forall k | 0 <= k < |b.History()| ensures !a.Owns(b.History()[k].cwd) {
      assert b.Owns(b.History()[k].cwd);
    }
  }

  lemma NextApart(jobs: seq<Job>, j: Job, i: nat)
    requires Inv(jobs) && i < |jobs| && jobs[i].id != j.id && !DirectoryTaken(jobs, j.id, j.cwd)
    requires Transition(JobAt(jobs, j.id), j)
    ensures Apart(jobs[i], j) && Apart(j, jobs[i])
  {
    var prior := JobAt(jobs, j.id);
    forall dir | j.Owns(dir) ensures !jobs[i].Owns(dir) {
      NextOwns(prior, j, dir);
      if dir != j.cwd {
        var p := Find(jobs, JobId, j.id);
        assert Apart(jobs[p], jobs[i]);
      }
    }
    assert j.Owns(j.cwd);
    forall k | 0 <= k < |j.History()| ensures !jobs[i].Owns(j.History()[k].cwd) {
      assert j.Owns(j.History()[k].cwd);
    }
    ApartSwaps(j, jobs[i]);
  }

  /** Each accepted snapshot keeps every job sound and every directory owned once. */
  lemma PutKeeps(jobs: seq<Job>, workspaces: set<Workspace>, j: Job)
    requires Inv(jobs) && Accepted(jobs, workspaces, j)
    ensures Inv(Put(jobs, JobId, j))
  {
    var after, at := Put(jobs, JobId, j), Find(jobs, JobId, j.id);
    PutUnique(jobs, JobId, j);
    NextOk(JobAt(jobs, j.id), j);
    forall a, b | 0 <= a < |after| && 0 <= b < |after| && a != b ensures Apart(after[a], after[b]) {
      if a == at {
        NextApart(jobs, j, b);
      } else if b == at {
        NextApart(jobs, j, a);
      }
    }
  }

  // ----- Whole histories -----

  /** The state a history of snapshots leads to, unless one of them is refused. */
  function Replay(history: seq<Job>, workspaces: set<Workspace>): Option<seq<Job>> {
    if history == [] then Some([]) else
    var n := |history| - 1;
    match Replay(history[..n], workspaces)
    case None => None
    case Some(jobs) =>
      if Accepted(jobs, workspaces, history[n]) then Some(Put(jobs, JobId, history[n])) else None
  }

  lemma {:induction false} ReplayKeeps(history: seq<Job>, workspaces: set<Workspace>)
    requires Replay(history, workspaces).Some?
    ensures Inv(Replay(history, workspaces).value)
  {
    if history != [] {
      var n := |history| - 1;
      ReplayKeeps(history[..n], workspaces);
      PutKeeps(Replay(history[..n], workspaces).value, workspaces, history[n]);
    }
  }

  datatype Attempt = Attempt(cwd: Text, targetCommit: Commit, candidateCommit: Commit)

  /** Every candidate a job ever verified, in order. */
  function Attempts(j: Job): seq<Attempt> {
    seq(|j.History()|, k requires 0 <= k < |j.History()| =>
      Attempt(j.History()[k].cwd, j.History()[k].targetCommit, j.History()[k].candidateCommit))
    + (if j.targetCommit.Some? && j.candidateCommit.Some?
       then [Attempt(j.cwd, j.targetCommit.value, j.candidateCommit.value)] else [])
  }

  /** What one job keeps over any history: its inputs, its verified candidates, and its end. */
  predicate Grows(a: Job, b: Job) {
    SameInputs(a, b) && Attempts(a) <= Attempts(b) && (a.Terminal() ==> a == b)
  }

  lemma TransitionGrows(prior: Job, next: Job)
    requires JobOk(prior) && Transition(Some(prior), next)
    ensures Grows(prior, next)
  {
    if IsRetry(Some(prior), next) {
      assert next.History() == next.previous.value;
      assert |Attempts(next)| == |Attempts(prior)|;
      forall k | 0 <= k < |Attempts(prior)| ensures Attempts(prior)[k] == Attempts(next)[k] {
        if k < |prior.History()| {
          assert next.History()[k] == prior.History()[k];
        }
      }
    }
  }

  /** A verified candidate stays on record for ever, a merged job keeps the target and the candidate it was
      verified with, and a finished job never changes. */
  lemma {:induction false} HistoryGrows(past: seq<Job>, more: seq<Job>, workspaces: set<Workspace>, id: Text)
    requires Replay(past + more, workspaces).Some?
    ensures Replay(past, workspaces).Some?
    ensures JobAt(Replay(past, workspaces).value, id).Some? ==>
              && JobAt(Replay(past + more, workspaces).value, id).Some?
              && Grows(JobAt(Replay(past, workspaces).value, id).value,
                       JobAt(Replay(past + more, workspaces).value, id).value)
    decreases |more|
  {
    if more == [] {
      assert past + more == past;
    } else {
      var all := past + more;
      var n := |all| - 1;
      assert all[..n] == past + more[..|more| - 1];
      HistoryGrows(past, more[..|more| - 1], workspaces, id);
      ReplayKeeps(all[..n], workspaces);
      PutAt(Replay(all[..n], workspaces).value, all[n], id);
      var prior := JobAt(Replay(all[..n], workspaces).value, id);
      if prior.Some? && id == all[n].id {
        TransitionGrows(prior.value, all[n]);
      }
    }
  }

  lemma PutAt(jobs: seq<Job>, j: Job, id: Text)
    requires Unique(jobs, JobId)
    ensures JobAt(Put(jobs, JobId, j), id) == if id == j.id then Some(j) else JobAt(jobs, id)
  {
    if Find(jobs, JobId, j.id) < |jobs| {
      FindSameKeys(jobs, Put(jobs, JobId, j), JobId, id);
    } else {
      FindAppend(jobs, JobId, j, id);
    }
  }

  /** No job ever has more than four candidates, each in a directory of its own. */
  lemma FourCandidates(j: Job)
    requires JobOk(j)
    ensures |Attempts(j)| <= MAX_RETRIES + 1
    ensures forall a, b :: 0 <= a < b < |Attempts(j)| ==> Attempts(j)[a].cwd != Attempts(j)[b].cwd
  {
    forall a, b | 0 <= a < b < |Attempts(j)| ensures Attempts(j)[a].cwd != Attempts(j)[b].cwd {
      DirectoriesDiffer(j.Base(), a, b);
    }
  }

  lemma DirectoriesDiffer(base: Text, a: nat, b: nat)
    requires a < b <= MAX_RETRIES
    ensures DirectoryAt(base, a) != DirectoryAt(base, b)
  {
    var x, y := DirectoryAt(base, a), DirectoryAt(base, b);
    if a == 0 {
      assert |x| < |y|;
    } else {
      assert x[|x| - 1] != y[|y| - 1];
    }
  }

  /** A gated job that merged was reviewed for the very candidate that was merged. */
  lemma GatedMerge(history: seq<Job>, workspaces: set<Workspace>, id: Text)
    requires Replay(history, workspaces).Some? && JobAt(Replay(history, workspaces).value, id).Some?
    requires JobAt(Replay(history, workspaces).value, id).value.phase == Merged
    requires JobAt(Replay(history, workspaces).value, id).value.reviewGate.Some?
    ensures var j := JobAt(Replay(history, workspaces).value, id).value;
            j.receipt.Some? && j.targetCommit == Some(j.receipt.value.targetCommit)
            && j.candidateCommit == Some(j.receipt.value.candidateCommit)
            && j.sourceCommit == j.receipt.value.sourceCommit
  {
    ReplayKeeps(history, workspaces);
    assert JobOk(JobAt(Replay(history, workspaces).value, id).value);
  }
}
