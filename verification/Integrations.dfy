/** The integration runner: it admits, verifies, promotes and abandons jobs, and records every step as a
    snapshot that an independent validator must accept. */
module Integrations {
  import opened Wrappers
  import opened Identities
  import opened Keyed
  import opened IntegrationProjections
  import opened Texts

  datatype Code = Busy | Conflict | Unavailable | LimitReached | ReviewDenied | InvalidArgument | NotReady | Thrown

  // ----- The snapshots the runner writes -----

  function Admitted(spec: Job): Job {
    spec.(phase := Queued, receipt := None, verificationFailed := false, previous := None, targetCommit := None,
          candidateCommit := None, error := None)
  }

  function Begun(j: Job, target: Commit): Job {
    j.(phase := Running, targetCommit := Some(target))
  }

  function Checked(j: Job, candidate: Commit): Job {
    j.(phase := Verified, candidateCommit := Some(candidate))
  }

  function Landed(j: Job): Job {
    j.(phase := Merged)
  }

  function Stopped(j: Job, error: Text, verification: bool): Job {
    j.(phase := Failed, verificationFailed := verification, error := Some(error))
  }

  function Again(j: Job, error: Text): Job
    requires |j.History()| < MAX_RETRIES && j.targetCommit.Some? && j.candidateCommit.Some?
  {
    j.(phase := Queued, cwd := RetryDirectory(j.Base(), |j.History()| + 1), targetCommit := None,
       candidateCommit := None,
       receipt := None,
       previous := Some(j.History() + [Superseded(j, error)]))
  }

  function Approved(j: Job, receipt: Receipt): Job {
    j.(receipt := Some(receipt))
  }

  predicate Reviewable(j: Job) {
    j.phase == Verified && j.reviewGate.Some? && j.receipt.None?
  }

  lemma AgainRefines(j: Job, error: Text)
    requires JobOk(j) && j.phase == Verified && |j.History()| < MAX_RETRIES
    ensures Transition(Some(j), Again(j, error)) && (WellFormed(Again(j, error)) <==> error != [])
  {
    var next := Again(j, error);
    assert next.previous.value[|next.previous.value| - 1].error == error;
    assert forall k :: 0 <= k < |j.History()| ==> next.previous.value[k] == j.History()[k];
  }

  lemma StoppedRefines(j: Job, error: Text)
    requires JobOk(j)
    ensures j.phase == Queued ==> Transition(Some(j), Stopped(j, error, false))
    ensures j.phase == Running ==> forall verification :: Transition(Some(j), Stopped(j, error, verification))
    ensures j.phase == Verified ==> Transition(Some(j), Stopped(j, error, false))
    ensures forall verification :: WellFormed(Stopped(j, error, verification)) <==> error != []
  {
  }

  /** Every snapshot the runner writes on top of the one it read satisfies the validator, whatever the provider
      did. Only the text of an error can still be refused, and only when it is empty. */
  lemma ProducerRefinesValidator(j: Job, target: Commit, candidate: Commit, error: Text, receipt: Receipt)
    requires JobOk(j)
    ensures j.phase == Queued ==> Transition(Some(j), Begun(j, target)) && WellFormed(Begun(j, target))
    ensures j.phase == Queued ==> Transition(Some(j), Stopped(j, error, false))
    ensures j.phase == Running ==> Transition(Some(j), Checked(j, candidate)) && WellFormed(Checked(j, candidate))
    ensures j.phase == Running ==> forall verification :: Transition(Some(j), Stopped(j, error, verification))
    ensures j.phase == Verified && !Reviewable(j) ==> Transition(Some(j), Landed(j)) && WellFormed(Landed(j))
    ensures j.phase == Verified ==> Transition(Some(j), Stopped(j, error, false))
    ensures j.phase == Verified && |j.History()| < MAX_RETRIES ==>
              Transition(Some(j), Again(j, error)) && (WellFormed(Again(j, error)) <==> error != [])
    ensures Reviewable(j) && Binds(receipt, j) ==>
              Transition(Some(j), Approved(j, receipt)) && WellFormed(Approved(j, receipt))
    ensures forall verification :: WellFormed(Stopped(j, error, verification)) <==> error != []
  {
    if j.phase == Verified && |j.History()| < MAX_RETRIES {
      AgainRefines(j, error);
    }
    StoppedRefines(j, error);
  }

  /** An abandonment is written on top of what was read earlier. It is accepted exactly when the job was not
      approved in between. */
  lemma AbandonAcceptedIff(read: Job, now: Job, reason: Text)
    requires JobOk(read) && JobOk(now) && !read.Terminal() && reason != []
    requires now == read || (Reviewable(read) && now.receipt.Some? && now == Approved(read, now.receipt.value))
    ensures Transition(Some(now), Stopped(read, reason, false)) <==> now == read
    ensures WellFormed(Stopped(read, reason, false))
  {
  }

  /** Whoever abandons can tell before the call: whatever others do in between, the abandonment is accepted exactly
      when the job that was read does not wait for a review. */
  lemma AbandonSafeIff(read: Job, reason: Text)
    requires JobOk(read) && !read.Terminal() && reason != []
    ensures (forall now :: JobOk(now) && Approval(read, now) ==> Transition(Some(now), Stopped(read, reason, false)))
       <==> !Reviewable(read)
  {
    if Reviewable(read) {
      var review := Receipt(read.id, read.sourceCommit, read.targetCommit.value, read.candidateCommit.value,
                            read.reviewGate.value, "review");
      var now := Approved(read, review);
      ProducerRefinesValidator(read, [], [], [], review);
      NextOk(Some(read), now);
      AbandonAcceptedIff(read, now, reason);
    } else {
      forall now | JobOk(now) && Approval(read, now) ensures Transition(Some(now), Stopped(read, reason, false)) {
        AbandonAcceptedIff(read, now, reason);
      }
    }
  }

  const SOURCE: Commit := "5a"
  const TARGET: Commit := "7b"
  const CANDIDATE: Commit := "9c"

  function ExampleJob(id: Text): Job {
    Job(id, "worker", "git", None, "/repo", "/w/integration-" + id, "topic", SOURCE, "main", ["make test"],
        Some("gate"), None,
        false, None, Queued, None, None, None)
  }

  /** The race is real: approving between an abandonment's read and its write makes the validator refuse it. */
  lemma AbandonRaces()
    ensures var read := Checked(Begun(ExampleJob("a"), TARGET), CANDIDATE);
            var now := Approved(read, Receipt("a", SOURCE, TARGET, CANDIDATE, "gate", "review-1"));
            JobOk(read) && Transition(Some(read), now) && !Transition(Some(now), Stopped(read, "obsolete", false))
  {
  }

  /** Admission does not look at candidate directories, so an id may name another job's retry directory. */
  lemma DirectoriesCollide()
    ensures var retried := Again(Checked(Begun(ExampleJob("a").(reviewGate := None), TARGET), CANDIDATE), "moved");
            var other := ExampleJob("a.retry-1").(reviewGate := None);
            JobOk(retried) && other.id != retried.id && Transition(None, other)
            && DirectoryTaken([retried], other.id, other.cwd)
  {
    var retried := Again(Checked(Begun(ExampleJob("a").(reviewGate := None), TARGET), CANDIDATE), "moved");
    assert retried.cwd == "/w/integration-a.retry-1";
    assert [retried][0].Owns("/w/integration-a.retry-1");
    assert retried.History()[0].cwd == "/w/integration-a";
  }

  // ----- The runner -----

  datatype Promotion = Promoted | Stale(error: Text) | Broken

  /** What the provider and the disk answer in one run. A failed flush comes after the snapshot is appended. */
  datatype World = World(
    target: Result<Commit, Text>,
    begunFlush: Option<Text>,
    candidate: Result<Commit, Text>,
    checkedFlush: Option<Text>,
    promotion: Promotion)

  const INTERRUPTED: Text := "Verification was interrupted; candidate checkout is retained. Enqueue a new request."

  function RetryLimit(error: Text): Text {
    "Target movement retry limit reached: " + error + ". Candidate checkouts are retained."
  }

  predicate Approval(a: Job, b: Job) {
    b == a || (Reviewable(a) && b.receipt.Some? && b == Approved(a, b.receipt.value))
  }

  /** While a runner works, other callers can only add jobs and approve candidates that wait for a review. */
  ghost predicate OnlyApproved(before: seq<Job>, after: seq<Job>) {
    forall id :: JobAt(before, id).Some? ==>
      JobAt(after, id).Some? && Approval(JobAt(before, id).value, JobAt(after, id).value)
  }

  /** A repeated review is the one on record; a first one is authorized and binds the verified candidate. */
  predicate Approvable(job: Option<Job>, receipt: Receipt, authorized: bool) {
    && job.Some?
    && (if job.value.receipt.Some? then job.value.receipt == Some(receipt)
        else authorized && job.value.phase == Verified && Binds(receipt, job.value))
  }

  /** What the provider and the disk answer makes the run record an empty error text. */
  predicate FailsEmpty(job: Job, world: World) {
    && job.phase == Queued
    && (|| world.target == Err([])
        || (world.target.Ok?
            && (world.begunFlush == Some([]) || (world.begunFlush.None? && world.candidate == Err([])))))
  }

  /** The run gets as far as a promotion, which finds the target moved, with retries left. */
  predicate FindsStale(job: Job, world: World) {
    && (job.reviewGate.Some? ==> job.receipt.Some?)
    && (|| job.phase == Verified
        || (job.phase == Queued && world.target.Ok? && world.begunFlush.None? && world.candidate.Ok?
            && world.checkedFlush.None?))
    && world.promotion.Stale? && |job.History()| < MAX_RETRIES
  }

  /** The directory of the next retry belongs to another job. */
  predicate RetryTaken(jobs: seq<Job>, job: Job)
    requires |job.History()| < MAX_RETRIES
  {
    DirectoryTaken(jobs, job.id, RetryDirectory(job.Base(), |job.History()| + 1))
  }

  /** What stops the projection in a run of this job: an empty error text, or a taken retry directory. */
  predicate StopsProjection(jobs: seq<Job>, job: Job, world: World) {
    || FailsEmpty(job, world)
    || (FindsStale(job, world) && (world.promotion.error == [] || RetryTaken(jobs, job)))
  }

  class TeamIntegrations {
    const maxPending: nat
    var workspaces: set<Workspace>
    var jobs: seq<Job>
    var failed: bool
    var running: bool

    ghost predicate Valid()
      reads this
    {
      Inv(jobs) && forall i :: 0 <= i < |jobs| ==> HasWorkspace(workspaces, jobs[i])
    }

    constructor (workspaces: set<Workspace>, maxPending: nat)
      ensures Valid() && !failed && !running && jobs == [] && this.workspaces == workspaces
              && this.maxPending == maxPending
    {
      this.workspaces, this.maxPending := workspaces, maxPending;
      jobs, failed, running := [], false, false;
    }

    /** Append one snapshot. A refused one stops the projection and leaves the jobs as they were. */
    method Append(j: Job)
      requires Valid()
      modifies this`jobs, this`failed
      ensures Valid()
      ensures failed == (old(failed) || !Accepted(old(jobs), workspaces, j))
      ensures jobs == if failed then old(jobs) else Put(old(jobs), JobId, j)
    {
      if !failed && Accepted(jobs, workspaces, j) {
        PutKeeps(jobs, workspaces, j);
        jobs := Put(jobs, JobId, j);
      } else {
        failed := true;
      }
    }

    /** Admit one job. It stops the projection exactly when the job's directory belongs to another job. */
    method Enqueue(spec: Job) returns (r: Result<Job, Code>)
      requires Valid() && !failed
      modifies this`jobs, this`failed
      ensures Valid()
      ensures r.Ok? <==> if JobAt(old(jobs), spec.id).Some? then SameAdmission(JobAt(old(jobs), spec.id).value, spec)
                         else HasWorkspace(workspaces, spec) && Unfinished(old(jobs)) < maxPending
      ensures r.Err? ==> !failed && jobs == old(jobs)
      ensures JobAt(old(jobs), spec.id).Some? ==> jobs == old(jobs) && !failed
      ensures r.Ok? && JobAt(old(jobs), spec.id).None? ==>
                && r.value == Admitted(spec)
                && (failed <==> DirectoryTaken(old(jobs), spec.id, spec.cwd))
                && (!failed ==> jobs == old(jobs) + [r.value])
      ensures r.Ok? && JobAt(old(jobs), spec.id).Some? ==>
                JobAt(jobs, spec.id) == Some(r.value) && SameAdmission(r.value, spec)
    {
      var existing := JobAt(jobs, spec.id);
      if existing.Some? {
        return if SameAdmission(existing.value, spec) then Ok(existing.value) else Err(Conflict);
      }
      if !HasWorkspace(workspaces, spec) {
        return Err(Unavailable);
      }
      if Unfinished(jobs) >= maxPending {
        return Err(LimitReached);
      }
      AdmittedAccepted(jobs, workspaces, spec);
      Append(Admitted(spec));
      r := Ok(Admitted(spec));
    }

    /** Record a host's review of exactly the verified candidate. It never stops the projection. */
    method Approve(receipt: Receipt, authorized: bool) returns (r: Result<Job, Code>)
      requires Valid() && !failed
      modifies this`jobs, this`failed
      ensures Valid() && !failed && OnlyApproved(old(jobs), jobs)
      ensures r.Ok? <==> Approvable(JobAt(old(jobs), receipt.integrationId), receipt, authorized)
      ensures r.Err? ==> jobs == old(jobs)
      ensures r.Ok? ==> JobAt(jobs, receipt.integrationId) == Some(r.value) && r.value.receipt == Some(receipt)
      ensures r.Ok? && jobs != old(jobs) ==> authorized && Binds(receipt, r.value) && r.value.phase == Verified
    {
      var found := JobAt(jobs, receipt.integrationId);
      if found.None? {
        return Err(Conflict);
      }
      var job := found.value;
      if job.receipt.Some? {
        return if job.receipt == Some(receipt) then Ok(job) else Err(Conflict);
      }
      if job.phase != Verified || !Binds(receipt, job) {
        return Err(Conflict);
      }
      if !authorized {
        return Err(ReviewDenied);
      }
      WriteAllowed(jobs, workspaces, job);
      ProducerRefinesValidator(job, [], [], [], receipt);
      ApprovedOnly(jobs, job, receipt);
      Append(Approved(job, receipt));
      PutAt(old(jobs), Approved(job, receipt), job.id);
      r := Ok(Approved(job, receipt));
    }

    /** Whatever other callers do while this one waits for the provider or the disk. */
    method Others()
      requires Valid() && !failed
      modifies this`jobs, this`failed, this`workspaces
      ensures Valid() && !failed && OnlyApproved(old(jobs), jobs) && old(workspaces) <= workspaces
    {
      var n: int := *;
      n := if n < 0 then 0 else n;
      for i := 0 to n
        invariant Valid() && !failed && OnlyApproved(old(jobs), jobs) && old(workspaces) <= workspaces
      {
        ghost var before := jobs;
        Other();
        ApprovedTwice(old(jobs), before, jobs);
      }
    }

    method Other()
      requires Valid() && !failed
      modifies this`jobs, this`failed, this`workspaces
      ensures Valid() && !failed && OnlyApproved(old(jobs), jobs) && old(workspaces) <= workspaces
    {
      var receipt: Receipt, authorized: bool, spec: Job, workspace: Workspace, review: bool := *, *, *, *, *;
      workspaces := workspaces + {workspace};
      if review {
        var r := Approve(receipt, authorized);
      } else if !DirectoryTaken(jobs, spec.id, spec.cwd) {
        var r := Enqueue(spec);
        AddedOnly(old(jobs), jobs);
      }
    }

    /** Write the next snapshot of a job that nobody else can change now. */
    method Record(job: Job, next: Job)
      requires Valid() && !failed && JobAt(jobs, job.id) == Some(job) && Transition(Some(job), next)
      modifies this`jobs, this`failed
      ensures Valid()
      ensures failed <==> !WellFormed(next) || DirectoryTaken(old(jobs), next.id, next.cwd)
      ensures !failed ==> JobAt(jobs, next.id) == Some(next)
      ensures next.cwd == job.cwd ==> !DirectoryTaken(old(jobs), next.id, next.cwd)
      ensures failed ==> jobs == old(jobs)
    {
      WriteAllowed(jobs, workspaces, job);
      Append(next);
      PutAt(old(jobs), next, next.id);
    }

    /** Run the oldest unfinished job, or the named one. The projection stops exactly when the last snapshot
        has an empty error text, or retries in a directory that another job owns. */
    method Run(id: Option<Text>, world: World) returns (r: Result<Option<Job>, Code>)
      requires Valid() && !failed
      modifies this`jobs, this`failed, this`running, this`workspaces
      ensures Valid() && running == old(running)
      ensures failed <==> r.Ok? && r.value.Some? && Refused(jobs, r.value.value)
      ensures failed <==> && !old(running) && Choose(old(jobs), id).Some?
                          && StopsProjection(jobs, Choose(old(jobs), id).value, world)
      ensures r.Ok? && r.value.Some? && r.value.value.phase == Merged ==>
                && world.promotion == Promoted && !failed && JobAt(jobs, r.value.value.id) == r.value
                && (r.value.value.reviewGate.Some? ==>
                      r.value.value.receipt.Some? && Binds(r.value.value.receipt.value, r.value.value))
      ensures r.Ok? && r.value.Some? ==>
                r.value.value.phase != Running && (r.value.value.phase == Verified ==> Reviewable(r.value.value))
    {
      if running {
        return Err(Busy);
      }
      running := true;
      var pick := Choose(jobs, id);
      if pick.None? {
        running := false;
        return Ok(None);
      }
      ghost var picked := jobs;
      Others();
      StillThere(picked, jobs, pick.value.id);
      var answer := Advance(pick.value, world);
      running := false;
      r := match answer
           case Ok(job) => Ok(Some(job))
           case Err(code) => Err(code);
    }

    method Advance(pick: Job, world: World) returns (r: Result<Job, Code>)
      requires Valid() && !failed && JobOk(pick) && !pick.Terminal() && JobAt(jobs, pick.id).Some?
      requires Approval(pick, JobAt(jobs, pick.id).value)
      modifies this`jobs, this`failed, this`workspaces
      ensures Valid()
      ensures failed <==> r.Ok? && Refused(jobs, r.value)
      ensures failed <==> StopsProjection(jobs, pick, world)
      ensures r.Ok? && r.value.phase == Merged ==>
                && world.promotion == Promoted && !failed && JobAt(jobs, r.value.id) == Some(r.value)
                && (r.value.reviewGate.Some? ==> r.value.receipt.Some? && Binds(r.value.receipt.value, r.value))
      ensures r.Ok? ==> r.value.phase != Running && (r.value.phase == Verified ==> Reviewable(r.value))
    {
      var job := pick;
      if job.phase == Running {
        ProducerRefinesValidator(job, [], [], INTERRUPTED, NO_RECEIPT);
        Record(job, Stopped(job, INTERRUPTED, false));
        StoredNotRefused(jobs, job.id);
        return Ok(Stopped(job, INTERRUPTED, false));
      }
      if job.phase == Queued {
        r := VerifyQueued(job, world);
        if r.Err? || r.value.phase != Verified {
          return;
        }
        job := r.value;
      }
      if Reviewable(job) {
        NeverRefused(jobs, pick, job);
        return Ok(job);
      }
      r := PromoteVerified(job, world);
    }

    /** From the queue to a verified candidate, or to a recorded failure. */
    method VerifyQueued(job: Job, world: World) returns (r: Result<Job, Code>)
      requires Valid() && !failed && JobAt(jobs, job.id) == Some(job) && job.phase == Queued
      modifies this`jobs, this`failed, this`workspaces
      ensures Valid()
      ensures failed <==> r.Ok? && Refused(jobs, r.value)
      ensures failed <==> FailsEmpty(job, world)
      ensures r.Ok? && r.value.phase == Verified <==>
                && world.target.Ok? && world.begunFlush.None? && world.candidate.Ok? && world.checkedFlush.None?
      ensures r.Ok? && r.value.phase == Verified ==>
                r.value == Checked(Begun(job, world.target.value), world.candidate.value)
      ensures r.Ok? ==> r.value.id == job.id && (r.value.phase == Failed || r.value.phase == Verified)
      ensures r.Ok? && !failed ==> JobAt(jobs, job.id).Some? && Approval(r.value, JobAt(jobs, job.id).value)
      ensures r.Ok? && r.value.phase == Verified ==>
                !failed && world.candidate.Ok? && r.value.candidateCommit == Some(world.candidate.value)
    {
      Wait(job);
      if world.target.Err? {
        r := Fail(job, world.target.error, false);
        return;
      }
      ProducerRefinesValidator(job, world.target.value, [], [], NO_RECEIPT);
      Record(job, Begun(job, world.target.value));
      var begun := Begun(job, world.target.value);
      Wait(begun);
      if world.begunFlush.Some? {
        r := Fail(begun, world.begunFlush.value, false);
        return;
      }
      if world.candidate.Err? {
        r := Fail(begun, world.candidate.error, true);
        return;
      }
      ProducerRefinesValidator(begun, [], world.candidate.value, [], NO_RECEIPT);
      Record(begun, Checked(begun, world.candidate.value));
      StoredNotRefused(jobs, job.id);
      r := if world.checkedFlush.Some? then Err(Thrown) else Ok(Checked(begun, world.candidate.value));
    }

    /** Wait while nobody can change this job. */
    method Wait(job: Job)
      requires Valid() && !failed && JobAt(jobs, job.id) == Some(job) && !Reviewable(job)
      modifies this`jobs, this`failed, this`workspaces
      ensures Valid() && !failed && JobAt(jobs, job.id) == Some(job)
    {
      ghost var before := jobs;
      Others();
      assert Approval(JobAt(before, job.id).value, JobAt(jobs, job.id).value);
    }

    method Fail(job: Job, error: Text, verification: bool) returns (r: Result<Job, Code>)
      requires Valid() && !failed && JobAt(jobs, job.id) == Some(job) && !job.Terminal()
      requires verification ==> job.phase == Running
      modifies this`jobs, this`failed
      ensures Valid() && r == Ok(Stopped(job, error, verification))
      ensures failed <==> Refused(jobs, r.value)
      ensures failed <==> error == []
      ensures !failed ==> JobAt(jobs, job.id) == Some(r.value)
    {
      ProducerRefinesValidator(job, [], [], error, NO_RECEIPT);
      Record(job, Stopped(job, error, verification));
      if !failed {
        StoredNotRefused(jobs, job.id);
      }
      r := Ok(Stopped(job, error, verification));
    }

    /** The write-ahead rule: a provider is asked to move a branch only to a candidate that is durably recorded
        as verified and, when the job is gated, durably approved. */
    method Promote(job: Job, world: World) returns (p: Promotion)
      requires JobAt(jobs, job.id) == Some(job) && job.phase == Verified && ReceiptOk(job)
      requires job.reviewGate.Some? ==> job.receipt.Some?
      ensures p == world.promotion
    {
      p := world.promotion;
    }

    method PromoteVerified(job: Job, world: World) returns (r: Result<Job, Code>)
      requires Valid() && !failed && JobAt(jobs, job.id) == Some(job) && job.phase == Verified && !Reviewable(job)
      modifies this`jobs, this`failed, this`workspaces
      ensures Valid()
      ensures failed <==> r.Ok? && Refused(jobs, r.value)
      ensures failed <==> && world.promotion.Stale? && |job.History()| < MAX_RETRIES
                          && (world.promotion.error == [] || RetryTaken(jobs, job))
      ensures r.Ok? ==> r.value.phase == Merged || r.value.phase == Failed || r.value.phase == Queued
      ensures r.Ok? && r.value.phase == Merged ==>
                world.promotion == Promoted && !failed && r.value == Landed(job) && JobAt(jobs, job.id) == Some(r.value)
    {
      Wait(job);
      StoredNotRefused(jobs, job.id);
      var p := Promote(job, world);
      Wait(job);
      StoredNotRefused(jobs, job.id);
      match p {
        case Broken =>
          r := Err(Thrown);
        case Promoted =>
          ProducerRefinesValidator(job, [], [], [], NO_RECEIPT);
          Record(job, Landed(job));
          StoredNotRefused(jobs, job.id);
          r := Ok(Landed(job));
        case Stale(error) =>
          if |job.History()| >= MAX_RETRIES {
            r := Fail(job, RetryLimit(error), false);
          } else {
            r := Retry(job, error);
          }
      }
    }

    method Retry(job: Job, error: Text) returns (r: Result<Job, Code>)
      requires Valid() && !failed && JobAt(jobs, job.id) == Some(job) && job.phase == Verified
               && |job.History()| < MAX_RETRIES
      modifies this`jobs, this`failed
      ensures Valid() && job.targetCommit.Some? && job.candidateCommit.Some? && r == Ok(Again(job, error))
      ensures failed <==> Refused(jobs, r.value)
      ensures failed <==> error == [] || RetryTaken(jobs, job)
    {
      StoredNotRefused(jobs, job.id);
      ProducerRefinesValidator(job, [], [], error, NO_RECEIPT);
      Record(job, Again(job, error));
      if !failed {
        StoredNotRefused(jobs, job.id);
      }
      r := Ok(Again(job, error));
    }

    /** Give up on an unfinished job. The snapshot is read before the write waits its turn, so the projection
        stops exactly when the job was approved in between. */
    method Abandon(id: Text, reason: Text)
      returns (r: Result<Job, Code>, ghost read: Option<Job>, ghost now: Option<Job>)
      requires Valid() && !failed
      modifies this`jobs, this`failed, this`running, this`workspaces
      ensures Valid() && running == old(running)
      ensures read == JobAt(old(jobs), id)
      ensures r.Ok? <==> !old(running) && Trim(reason) != [] && read.Some? && !read.value.Terminal()
      ensures r.Ok? ==> r.value == Stopped(read.value, Trim(reason), false)
      ensures failed <==> r.Ok? && now != read
      ensures r.Ok? && !Reviewable(read.value) ==> !failed
      ensures r.Ok? && !failed ==> JobAt(jobs, id) == Some(r.value)
    {
      read, now := JobAt(jobs, id), None;
      if running {
        return Err(Busy), read, now;
      }
      var text := Trim(reason);
      if text == [] {
        return Err(InvalidArgument), read, now;
      }
      running := true;
      var found := JobAt(jobs, id);
      if found.None? || found.value.Terminal() {
        running := false;
        return Err(Conflict), read, now;
      }
      ghost var before := jobs;
      Others();
      StillThere(before, jobs, id);
      now := JobAt(jobs, id);
      r := WriteAbandoned(found.value, now.value, text);
      running := false;
    }

    method WriteAbandoned(job: Job, ghost now: Job, reason: Text) returns (r: Result<Job, Code>)
      requires Valid() && !failed && JobOk(job) && !job.Terminal() && reason != []
      requires JobAt(jobs, job.id) == Some(now) && Approval(job, now)
      modifies this`jobs, this`failed
      ensures Valid() && (failed <==> now != job) && r == Ok(Stopped(job, reason, false))
      ensures !failed ==> JobAt(jobs, job.id) == Some(r.value)
    {
      WriteAllowed(jobs, workspaces, now);
      AbandonAcceptedIff(job, now, reason);
      Append(Stopped(job, reason, false));
      PutAt(old(jobs), Stopped(job, reason, false), job.id);
      r := Ok(Stopped(job, reason, false));
    }
  }

  const NO_RECEIPT := Receipt([], [], [], [], [], [])

  predicate SameAdmission(a: Job, b: Job) {
    && a.memberId == b.memberId && a.sourceCommit == b.sourceCommit && a.repository == b.repository
    && a.targetBranch == b.targetBranch && a.verification == b.verification && a.reviewGate == b.reviewGate
    && a.external == b.external
  }

  function Unfinished(jobs: seq<Job>): nat {
    if jobs == [] then 0 else Unfinished(jobs[..|jobs| - 1]) + (if jobs[|jobs| - 1].Terminal() then 0 else 1)
  }

  /** The first unfinished job, or the named one if it is unfinished. */
  function Choose(jobs: seq<Job>, id: Option<Text>): (r: Option<Job>)
    ensures r.Some? ==> r.value in jobs && !r.value.Terminal() && (id.Some? ==> r.value.id == id.value)
    ensures r.None? ==> forall j :: j in jobs && (id.Some? ==> j.id == id.value) ==> j.Terminal()
  {
    if jobs == [] then None
    else if !jobs[0].Terminal() && (id.Some? ==> jobs[0].id == id.value) then Some(jobs[0])
    else Choose(jobs[1..], id)
  }

  /** The validator refuses the text of its error, or the projection its directory. */
  predicate Refused(jobs: seq<Job>, j: Job) {
    !WellFormed(j) || DirectoryTaken(jobs, j.id, j.cwd)
  }

  lemma AdmittedAccepted(jobs: seq<Job>, workspaces: set<Workspace>, spec: Job)
    requires JobAt(jobs, spec.id).None? && HasWorkspace(workspaces, spec)
    ensures Accepted(jobs, workspaces, Admitted(spec)) <==> !DirectoryTaken(jobs, spec.id, spec.cwd)
    ensures Put(jobs, JobId, Admitted(spec)) == jobs + [Admitted(spec)]
  {
  }

  lemma WriteAllowed(jobs: seq<Job>, workspaces: set<Workspace>, job: Job)
    requires Inv(jobs) && JobAt(jobs, job.id) == Some(job)
    requires forall i :: 0 <= i < |jobs| ==> HasWorkspace(workspaces, jobs[i])
    ensures JobOk(job) && HasWorkspace(workspaces, job) && !DirectoryTaken(jobs, job.id, job.cwd)
  {
    var at := Find(jobs, JobId, job.id);
    forall i | 0 <= i < |jobs| && jobs[i].id != job.id ensures !jobs[i].Owns(job.cwd) {
      assert Apart(jobs[at], jobs[i]);
    }
  }

  lemma StoredNotRefused(jobs: seq<Job>, id: Text)
    requires Inv(jobs) && JobAt(jobs, id).Some?
    ensures !Refused(jobs, JobAt(jobs, id).value) && JobOk(JobAt(jobs, id).value)
  {
    var at := Find(jobs, JobId, id);
    forall i | 0 <= i < |jobs| && jobs[i].id != id ensures !jobs[i].Owns(jobs[at].cwd) {
      assert Apart(jobs[at], jobs[i]);
    }
  }

  lemma NeverRefused(jobs: seq<Job>, pick: Job, job: Job)
    requires Inv(jobs) && JobAt(jobs, job.id).Some? && Approval(job, JobAt(jobs, job.id).value)
    ensures !Refused(jobs, job)
  {
    StoredNotRefused(jobs, job.id);
  }

  lemma ApprovedTwice(a: seq<Job>, b: seq<Job>, c: seq<Job>)
    requires OnlyApproved(a, b) && OnlyApproved(b, c)
    ensures OnlyApproved(a, c)
  {
    forall id | JobAt(a, id).Some? ensures JobAt(c, id).Some? && Approval(JobAt(a, id).value, JobAt(c, id).value) {
      assert Approval(JobAt(a, id).value, JobAt(b, id).value) && Approval(JobAt(b, id).value, JobAt(c, id).value);
    }
  }

  lemma ApprovedOnly(jobs: seq<Job>, job: Job, receipt: Receipt)
    requires Unique(jobs, JobId) && JobAt(jobs, job.id) == Some(job) && Reviewable(job)
    ensures OnlyApproved(jobs, Put(jobs, JobId, Approved(job, receipt))) && OnlyApproved(jobs, jobs)
  {
    forall id | JobAt(jobs, id).Some?
      ensures JobAt(Put(jobs, JobId, Approved(job, receipt)), id).Some?
      ensures Approval(JobAt(jobs, id).value, JobAt(Put(jobs, JobId, Approved(job, receipt)), id).value)
    {
      PutAt(jobs, Approved(job, receipt), id);
    }
  }

  lemma AddedOnly(before: seq<Job>, after: seq<Job>)
    requires before <= after
    ensures OnlyApproved(before, after)
  {
    forall id | JobAt(before, id).Some? ensures JobAt(after, id) == JobAt(before, id) {
    }
  }

  lemma StillThere(before: seq<Job>, after: seq<Job>, id: Text)
    requires OnlyApproved(before, after) && JobAt(before, id).Some?
    ensures JobAt(after, id).Some? && Approval(JobAt(before, id).value, JobAt(after, id).value)
  {
  }
}
