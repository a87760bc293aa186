/** The promise chain of one journal. Every append, and the close, waits only on the one promise that was last
    when it was made; that appends run one at a time and in order, and that the file is released behind all of
    them, follows. */
module AppendQueues {
  import opened Wrappers

  datatype Status = Waiting | Running | Settled

  /** An accepted append, with the promise it waits on: an earlier append, or none. */
  datatype Operation = Operation(after: Option<nat>, status: Status)

  /** `pending` is the last promise made; `closing` is the promise that the first `close` waits on. */
  datatype Chain = Chain(appends: seq<Operation>, pending: Option<nat>, closing: Option<Option<nat>>, released: bool)

  const EMPTY := Chain([], None, None, false)

  datatype Turn = Submit | Start(k: nat) | Settle(k: nat) | Close | Release

  /** Whether a promise has settled. */
  predicate Done(c: Chain, promise: Option<nat>) {
    promise.Some? ==> promise.value < |c.appends| && c.appends[promise.value].status == Settled
  }

  function WithStatus(c: Chain, k: nat, status: Status): Chain
    requires k < |c.appends|
  {
    c.(appends := c.appends[k := c.appends[k].(status := status)])
  }

  /** One turn of the event loop, or `None` when it cannot happen. A refused append settles like any other. */
  function Next(c: Chain, s: Turn): Option<Chain> {
    match s
    case Submit =>
      if c.closing.Some? then None
      else Some(c.(appends := c.appends + [Operation(c.pending, Waiting)], pending := Some(|c.appends|)))
    case Start(k) =>
      if k < |c.appends| && c.appends[k].status == Waiting && Done(c, c.appends[k].after)
      then Some(WithStatus(c, k, Running)) else None
    case Settle(k) =>
      if k < |c.appends| && c.appends[k].status == Running then Some(WithStatus(c, k, Settled)) else None
    case Close => Some(if c.closing.Some? then c else c.(closing := Some(c.pending)))
    case Release =>
      if c.closing.Some? && Done(c, c.closing.value) && !c.released then Some(c.(released := true)) else None
  }

  function Run(steps: seq<Turn>): Option<Chain> {
    if steps == [] then Some(EMPTY)
    else match Run(steps[..|steps| - 1])
         case None => None
         case Some(c) => Next(c, steps[|steps| - 1])
  }

  function Last(n: nat): Option<nat> {
    if n == 0 then None else Some(n - 1)
  }

  predicate AllSettled(c: Chain) {
    forall i :: 0 <= i < |c.appends| ==> c.appends[i].status == Settled
  }

  /** Each promise waits on the one before it, so whatever has started has everything before it settled. */
  predicate Inv(c: Chain) {
    && c.pending == Last(|c.appends|)
    && (forall i :: 0 <= i < |c.appends| ==> c.appends[i].after == Last(i))
    && (forall i, j :: 0 <= i < j < |c.appends| && c.appends[j].status != Waiting ==> c.appends[i].status == Settled)
    && (c.closing.Some? ==> c.closing.value == c.pending)
    && (c.released ==> c.closing.Some? && AllSettled(c))
  }

  lemma NextKeeps(c: Chain, s: Turn)
    requires Inv(c) && Next(c, s).Some?
    ensures Inv(Next(c, s).value)
  {
    if s.Start? && s.k > 0 {
      assert c.appends[s.k - 1].status == Settled;
    }
  }

  lemma {:induction false} RunKeeps(steps: seq<Turn>)
    requires Run(steps).Some?
    ensures Inv(Run(steps).value)
  {
    if steps != [] {
      RunKeeps(steps[..|steps| - 1]);
      NextKeeps(Run(steps[..|steps| - 1]).value, steps[|steps| - 1]);
    }
  }

  /** At most one append runs, every earlier one has settled, and after the release none runs or ever starts. */
  lemma ReleasedBehindAppends(steps: seq<Turn>, more: Turn)
    requires Run(steps).Some?
    ensures var c := Run(steps).value;
      && (forall i, j :: 0 <= i < j < |c.appends| && c.appends[j].status == Running ==> c.appends[i].status == Settled)
      && (c.released ==> AllSettled(c))
      && (c.released && Next(c, more).Some? ==> Next(c, more).value == c)
  {
    RunKeeps(steps);
    var c := Run(steps).value;
    if c.released {
      match more
      case Start(k) => assert k < |c.appends| ==> c.appends[k].status == Settled;
      case Settle(k) => assert k < |c.appends| ==> c.appends[k].status == Settled;
      case _ =>
    }
  }

  /** While an append runs the file is not released, and nothing but that append can settle. */
  lemma RunningHolds(c: Chain, k: nat, s: Turn)
    requires Inv(c) && k < |c.appends| && c.appends[k].status == Running
    ensures !c.released && Next(c, Release).None?
    ensures Next(c, s).Some? ==> s == Settle(k) || s.Submit? || s.Close?
  {
  }

  lemma OnlyOneRuns(c: Chain, k: nat)
    requires Inv(c) && k < |c.appends| && c.appends[k].status == Running
    ensures forall i :: 0 <= i < |c.appends| && i != k ==> c.appends[i].status != Running
  {
  }

  /** An unsettled append never waits for nothing: the first one can always start, or is running. */
  lemma FirstCanStart(c: Chain, k: nat)
    requires Inv(c) && k < |c.appends| && c.appends[k].status != Settled
    requires forall i :: 0 <= i < k ==> c.appends[i].status == Settled
    ensures c.appends[k].status == Running || Next(c, Start(k)).Some?
  {
  }
}
