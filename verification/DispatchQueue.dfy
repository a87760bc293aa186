/** Fair, paced scheduling order: projects take turns, and within a project the highest priority goes first. */
module DispatchQueues {
  import opened Wrappers
  import opened Identities
  import Keyed

  datatype DispatchRequest = DispatchRequest(work: Work, order: nat, priority: int, revision: nat,
                                             cancelReason: Option<Text>)

  datatype Queue = Queue(requests: seq<DispatchRequest>, turns: map<nat, nat>, lastDispatchAt: Option<nat>,
                         sequence: nat)

  datatype QueueEvent =
    | Enqueued(work: Work)
    | Prioritized(work: Work, expectedRevision: nat, priority: int)
    | Cancelled(work: Work, expectedRevision: nat, reason: Text)
    | Selected(work: Work, at: nat)

  function WorkOf(r: DispatchRequest): Work {
    r.work
  }

  function FindWork(requests: seq<DispatchRequest>, work: Work): (i: nat)
    ensures i <= |requests|
    ensures i < |requests| ==> requests[i].work == work
    ensures forall k :: 0 <= k < i ==> requests[k].work != work
  {
    Keyed.Find(requests, WorkOf, work)
  }

  function Reduce(q: Queue, e: QueueEvent): Option<Queue> {
    var i := FindWork(q.requests, e.work);
    var next := q.(sequence := q.sequence + 1);
    match e
    case Enqueued(work) =>
      if i < |q.requests| then None
      else Some(next.(requests := q.requests + [DispatchRequest(work, q.sequence + 1, 0, 1, None)]))
    case Prioritized(_, expected, priority) =>
      if i == |q.requests| || q.requests[i].revision != expected || q.requests[i].cancelReason.Some? then None
      else Some(next.(requests := q.requests[i := q.requests[i].(priority := priority, revision := expected + 1)]))
    case Cancelled(_, expected, reason) =>
      if i == |q.requests| || q.requests[i].revision != expected || q.requests[i].cancelReason.Some? then None
      else Some(next.(requests := q.requests[i := q.requests[i].(cancelReason := Some(reason),
                                                                 revision := expected + 1)]))
    case Selected(work, at) =>
      if i == |q.requests| || (q.lastDispatchAt.Some? && at < q.lastDispatchAt.value) then None
      else Some(next.(turns := q.turns[work.projectId := q.sequence + 1], lastDispatchAt := Some(at)))
  }

  // ----- Choosing -----

  function Turn(q: Queue, projectId: nat): nat {
    if projectId in q.turns then q.turns[projectId] else 0
  }

  function Candidates(requests: seq<DispatchRequest>, eligible: DispatchRequest -> bool): (r: seq<DispatchRequest>)
    ensures forall c :: c in r <==> c in requests && c.cancelReason.None? && eligible(c)
  {
    if requests == [] then []
    else (if requests[0].cancelReason.None? && eligible(requests[0]) then [requests[0]] else [])
         + Candidates(requests[1..], eligible)
  }

  predicate TurnBefore(q: Queue, a: DispatchRequest, b: DispatchRequest) {
    Turn(q, a.work.projectId) < Turn(q, b.work.projectId)
    || (Turn(q, a.work.projectId) == Turn(q, b.work.projectId) && a.order <= b.order)
  }

  predicate PriorityBefore(a: DispatchRequest, b: DispatchRequest) {
    a.priority > b.priority || (a.priority == b.priority && a.order <= b.order)
  }

  /** The request whose project has waited longest, then the oldest. */
  function FirstByTurn(q: Queue, candidates: seq<DispatchRequest>): (r: DispatchRequest)
    requires candidates != []
    ensures r in candidates && forall c :: c in candidates ==> TurnBefore(q, r, c)
  {
    if |candidates| == 1 then candidates[0]
    else var rest := FirstByTurn(q, candidates[1..]);
         assert forall c :: c in candidates ==> c == candidates[0] || c in candidates[1..];
         if TurnBefore(q, candidates[0], rest) then candidates[0] else rest
  }

  function OfProject(candidates: seq<DispatchRequest>, projectId: nat): (r: seq<DispatchRequest>)
    ensures forall c :: c in r <==> c in candidates && c.work.projectId == projectId
  {
    if candidates == [] then []
    else if candidates[0].work.projectId == projectId then [candidates[0]] + OfProject(candidates[1..], projectId)
    else OfProject(candidates[1..], projectId)
  }

  function FirstByPriority(candidates: seq<DispatchRequest>): (r: DispatchRequest)
    requires candidates != []
    ensures r in candidates && forall c :: c in candidates ==> PriorityBefore(r, c)
  {
    if |candidates| == 1 then candidates[0]
    else var rest := FirstByPriority(candidates[1..]);
         assert forall c :: c in candidates ==> c == candidates[0] || c in candidates[1..];
         if PriorityBefore(candidates[0], rest) then candidates[0] else rest
  }

  predicate Paced(q: Queue, now: nat, interval: nat) {
    q.lastDispatchAt.Some? ==> interval <= now - q.lastDispatchAt.value
  }

  /** The chosen request: longest-waiting project among the eligible, then its highest priority, then its oldest. */
  function Choose(q: Queue, eligible: DispatchRequest -> bool, now: nat, interval: nat): (r: Option<DispatchRequest>)
    ensures r.Some? <==> Paced(q, now, interval)
                         && exists c :: c in q.requests && c.cancelReason.None? && eligible(c)
    ensures r.Some? ==> r.value in q.requests && r.value.cancelReason.None? && eligible(r.value)
    ensures r.Some? ==> forall c :: c in q.requests && c.cancelReason.None? && eligible(c) ==>
              Turn(q, r.value.work.projectId) <= Turn(q, c.work.projectId)
    ensures r.Some? ==>
              forall c | c in q.requests && c.cancelReason.None? && eligible(c)
                         && c.work.projectId == r.value.work.projectId ::
                PriorityBefore(r.value, c)
  {
    var candidates := Candidates(q.requests, eligible);
    if !Paced(q, now, interval) then None
    else if candidates == [] then
      assert forall c :: c in q.requests && c.cancelReason.None? && eligible(c) ==> c in candidates;
      None
    else
      var first := FirstByTurn(q, candidates);
      assert first in OfProject(candidates, first.work.projectId);
      Some(FirstByPriority(OfProject(candidates, first.work.projectId)))
  }

  // ----- Runs -----

  /** What happens to the queue: ordinary and operator selections, and every other change. */
  datatype Step =
    | Ordinary(eligible: DispatchRequest -> bool, now: nat)
    | Operator(work: Work, now: nat)
    | Edit(event: QueueEvent)

  /** The event of a step, or `None` when the step writes nothing. */
  function StepEvent(q: Queue, s: Step, interval: nat): Option<QueueEvent> {
    match s
    case Ordinary(eligible, now) =>
      var chosen := Choose(q, eligible, now, interval);
      if chosen.Some? then Some(Selected(chosen.value.work, now)) else None
    case Operator(work, now) =>
      if Paced(q, now, interval) && exists c :: c in q.requests && c.work == work && c.cancelReason.None?
      then Some(Selected(work, now)) else None
    case Edit(event) =>
      if event.Selected? then None else Some(event)
  }

  /** The queue after a step; a refused event changes nothing. */
  function Advance(q: Queue, s: Step, interval: nat): Queue {
    var e := StepEvent(q, s, interval);
    if e.Some? && Reduce(q, e.value).Some? then Reduce(q, e.value).value else q
  }

  function Run(q: Queue, steps: seq<Step>, interval: nat): Queue {
    if steps == [] then q else Advance(Run(q, steps[..|steps| - 1], interval), steps[|steps| - 1], interval)
  }

  /** The project that a step selects, if any. */
  function Picks(q: Queue, s: Step, interval: nat): Option<nat> {
    var e := StepEvent(q, s, interval);
    if e.Some? && e.value.Selected? && Reduce(q, e.value).Some? then Some(e.value.work.projectId) else None
  }

  predicate TurnsBounded(q: Queue) {
    forall p :: p in q.turns ==> q.turns[p] <= q.sequence
  }

  lemma FindWorkFinds(requests: seq<DispatchRequest>, c: DispatchRequest)
    requires c in requests
    ensures FindWork(requests, c.work) < |requests|
  {
  }

  /** Only a selection changes the turns. */
  lemma ReduceTurns(q: Queue, e: QueueEvent)
    requires Reduce(q, e).Some?
    ensures Reduce(q, e).value.sequence == q.sequence + 1
    ensures Reduce(q, e).value.turns == if e.Selected? then q.turns[e.work.projectId := q.sequence + 1] else q.turns
  {
  }

  lemma AdvanceTurns(q: Queue, s: Step, interval: nat)
    requires TurnsBounded(q)
    ensures TurnsBounded(Advance(q, s, interval))
    ensures forall p: nat :: Turn(Advance(q, s, interval), p)
                        == if Picks(q, s, interval) == Some(p) then q.sequence + 1 else Turn(q, p)
  {
    var e := StepEvent(q, s, interval);
    if e.Some? && Reduce(q, e.value).Some? {
      ReduceTurns(q, e.value);
    }
  }

  /** A selection inside the pacing fence is never refused by the reducer, even after the clock stepped back. */
  lemma SelectionAccepted(q: Queue, s: Step, interval: nat)
    requires StepEvent(q, s, interval).Some? && StepEvent(q, s, interval).value.Selected?
    ensures Reduce(q, StepEvent(q, s, interval).value).Some?
  {
    var work, at := StepEvent(q, s, interval).value.work, StepEvent(q, s, interval).value.at;
    SelectionOpen(q, s, interval);
    var c :| c in q.requests && c.work == work;
    FindWorkFinds(q.requests, c);
  }

  /** What a selection selects is in the queue, and not before the pacing fence. */
  lemma SelectionOpen(q: Queue, s: Step, interval: nat)
    requires StepEvent(q, s, interval).Some? && StepEvent(q, s, interval).value.Selected?
    ensures exists c :: c in q.requests && c.work == StepEvent(q, s, interval).value.work
    ensures Paced(q, StepEvent(q, s, interval).value.at, interval)
  {
    if s.Operator? {
      var c :| c in q.requests && c.work == s.work && c.cancelReason.None?;
    }
  }

  // ----- Fairness -----

  /** Ordinary selections of a run that chose something. */
  function Ordinaries(q: Queue, steps: seq<Step>, interval: nat): nat {
    if steps == [] then 0
    else var last := steps[|steps| - 1]; var before := steps[..|steps| - 1];
         Ordinaries(q, before, interval)
         + (if last.Ordinary? && Picks(Run(q, before, interval), last, interval).Some? then 1 else 0)
  }

  /** Some request of the project is open and eligible. */
  ghost predicate Waiting(q: Queue, p: nat, eligible: DispatchRequest -> bool) {
    exists c :: c in q.requests && c.cancelReason.None? && eligible(c) && c.work.projectId == p
  }

  /** Throughout the run the project is eligible at every ordinary selection, is never picked, and every
      picked project is one of a fixed set. */
  ghost predicate Starved(q: Queue, steps: seq<Step>, interval: nat, p: nat, projects: set<nat>) {
    forall i :: 0 <= i < |steps| ==>
      var before := Run(q, steps[..i], interval);
      && Picks(before, steps[i], interval) != Some(p)
      && (Picks(before, steps[i], interval).Some? ==> Picks(before, steps[i], interval).value in projects)
      && (steps[i].Ordinary? ==> Waiting(before, p, steps[i].eligible))
  }

  function Passed(q: Queue, p: nat, projects: set<nat>): set<nat> {
    set r | r in projects && Turn(q, r) > Turn(q, p)
  }

  lemma {:induction false} StarvedCounts(q: Queue, steps: seq<Step>, interval: nat, p: nat, projects: set<nat>)
    requires TurnsBounded(q) && Starved(q, steps, interval, p, projects) && p in projects
    ensures TurnsBounded(Run(q, steps, interval))
    ensures Ordinaries(q, steps, interval) <= |Passed(Run(q, steps, interval), p, projects)|
  {
    if steps != [] {
      var n := |steps| - 1;
      var init, last := steps[..n], steps[n];
      assert forall i :: 0 <= i < n ==> init[..i] == steps[..i];
      StarvedCounts(q, init, interval, p, projects);
      PassedGrows(Run(q, init, interval), last, interval, p, projects);
    }
  }

  lemma PassedGrows(q: Queue, s: Step, interval: nat, p: nat, projects: set<nat>)
    requires TurnsBounded(q) && p in projects && Picks(q, s, interval) != Some(p)
    requires Picks(q, s, interval).Some? ==> Picks(q, s, interval).value in projects
    requires s.Ordinary? ==> Waiting(q, p, s.eligible)
    ensures TurnsBounded(Advance(q, s, interval))
    ensures |Passed(Advance(q, s, interval), p, projects)|
         >= |Passed(q, p, projects)| + (if s.Ordinary? && Picks(q, s, interval).Some? then 1 else 0)
  {
    AdvanceTurns(q, s, interval);
    var before, after := Passed(q, p, projects), Passed(Advance(q, s, interval), p, projects);
    var picked := Picks(q, s, interval);
    if s.Ordinary? && picked.Some? {
      PickedWasBehind(q, s, interval, p, projects);
      SubsetSize(before + {picked.value}, after);
    } else {
      SubsetSize(before, after);
    }
  }

  /** An ordinary selection picks a project that was not yet past the waiting one. */
  lemma PickedWasBehind(q: Queue, s: Step, interval: nat, p: nat, projects: set<nat>)
    requires s.Ordinary? && Picks(q, s, interval).Some? && Waiting(q, p, s.eligible)
    ensures Picks(q, s, interval).value !in Passed(q, p, projects)
  {
  }

  lemma {:induction false} SubsetSize<T>(a: set<T>, b: set<T>)
    requires a <= b
    ensures |a| <= |b|
    decreases a
  {
    if a != {} {
      var x :| x in a;
      SubsetSize(a - {x}, b - {x});
    }
  }

  /** A project that stays eligible is picked before the ordinary selections number as many as the projects,
      whatever priorities, cancellations, arrivals and operator selections happen in between. */
  lemma Fair(q: Queue, steps: seq<Step>, interval: nat, p: nat, projects: set<nat>)
    requires TurnsBounded(q) && p in projects && Starved(q, steps, interval, p, projects)
    ensures Ordinaries(q, steps, interval) < |projects|
  {
    StarvedCounts(q, steps, interval, p, projects);
    var passed := Passed(Run(q, steps, interval), p, projects);
    assert passed + {p} <= projects && p !in passed;
    SubsetSize(passed + {p}, projects);
  }

  // ----- Pacing -----

  /** The times of a run's selections, in order. */
  function Times(q: Queue, steps: seq<Step>, interval: nat): seq<nat> {
    if steps == [] then []
    else var before := steps[..|steps| - 1]; var last := steps[|steps| - 1];
         Times(q, before, interval)
         + (if Picks(Run(q, before, interval), last, interval).Some?
            then [StepEvent(Run(q, before, interval), last, interval).value.at] else [])
  }

  /** One step moves the last selection's time only by selecting, and then by a whole interval at least. */
  lemma StepTime(q: Queue, s: Step, interval: nat)
    ensures Picks(q, s, interval).None? ==> Advance(q, s, interval).lastDispatchAt == q.lastDispatchAt
    ensures Picks(q, s, interval).Some? ==>
              && Advance(q, s, interval).lastDispatchAt == Some(StepEvent(q, s, interval).value.at)
              && (q.lastDispatchAt.Some? ==> q.lastDispatchAt.value + interval <= StepEvent(q, s, interval).value.at)
  {
    if Picks(q, s, interval).Some? {
      SelectionOpen(q, s, interval);
    }
  }

  lemma {:induction false} LastTime(q: Queue, steps: seq<Step>, interval: nat)
    requires q.lastDispatchAt.None?
    ensures var times := Times(q, steps, interval);
      && Run(q, steps, interval).lastDispatchAt == (if times == [] then None else Some(times[|times| - 1]))
      && forall i :: 0 < i < |times| ==> times[i - 1] + interval <= times[i]
  {
    if steps != [] {
      LastTime(q, steps[..|steps| - 1], interval);
      StepTime(Run(q, steps[..|steps| - 1], interval), steps[|steps| - 1], interval);
    }
  }

  /** Any k selections span at least k - 1 intervals, whatever clock readings the callers supply. */
  lemma {:induction false} Spaced(q: Queue, steps: seq<Step>, interval: nat, i: nat, k: nat)
    requires q.lastDispatchAt.None? && i + k < |Times(q, steps, interval)|
    ensures Times(q, steps, interval)[i + k] - Times(q, steps, interval)[i] >= k * interval
    decreases k
  {
    LastTime(q, steps, interval);
    if k > 0 {
      Spaced(q, steps, interval, i, k - 1);
      var times := Times(q, steps, interval);
      assert times[i + k - 1] + interval <= times[i + k];
      assert k * interval == (k - 1) * interval + interval;
    }
  }

  class DispatchQueue {
    var q: Queue

    constructor ()
      ensures q == Queue([], map[], None, 0)
    {
      q := Queue([], map[], None, 0);
    }

    method Append(e: QueueEvent) returns (ok: bool)
      modifies this
      ensures ok == Reduce(old(q), e).Some?
      ensures q == if ok then Reduce(old(q), e).value else old(q)
    {
      var next := Reduce(q, e);
      ok := next.Some?;
      if ok {
        q := next.value;
      }
    }

    /** Work keeps the place of its first arrival. */
    method Enqueue(work: Work)
      modifies this
      ensures exists c :: c in q.requests && c.work == work
      ensures old(q.requests) <= q.requests
    {
      if FindWork(q.requests, work) == |q.requests| {
        var ok := Append(Enqueued(work));
        assert q.requests[|q.requests| - 1].work == work;
      } else {
        assert q.requests[FindWork(q.requests, work)].work == work;
      }
    }

    method Select(eligible: DispatchRequest -> bool, now: nat, interval: nat) returns (chosen: Option<DispatchRequest>)
      modifies this
      ensures chosen == Choose(old(q), eligible, now, interval)
      ensures q == Advance(old(q), Ordinary(eligible, now), interval)
      ensures q.requests == old(q.requests)
    {
      chosen := Choose(q, eligible, now, interval);
      if chosen.Some? {
        var ok := Append(Selected(chosen.value.work, now));
      }
    }

    /** An operator's choice passes the same pacing fence. */
    method SelectExact(work: Work, now: nat, interval: nat) returns (chosen: Option<DispatchRequest>)
      modifies this
      ensures chosen.Some? <==> Paced(old(q), now, interval)
                                && exists c :: c in old(q.requests) && c.work == work && c.cancelReason.None?
      ensures chosen.Some? ==>
                chosen.value in old(q.requests) && chosen.value.work == work && chosen.value.cancelReason.None?
      ensures q == Advance(old(q), Operator(work, now), interval)
    {
      chosen := None;
      if Paced(q, now, interval) {
        var open := Candidates(q.requests, (c: DispatchRequest) => c.work == work);
        if open != [] {
          assert open[0] in open;
          var ok := Append(Selected(work, now));
          return Some(open[0]);
        }
        assert forall c :: c in q.requests && c.work == work && c.cancelReason.None? ==> c in open;
      }
    }
  }
}
