/** Whole runs of the health store: recording only changes decides as recording everything would, and an
    operator is called within pinned limits. */
module HealthRuns {
  import opened Wrappers
  import opened Identities
  import opened Keyed
  import opened HealthModel

  datatype Op =
    | Assessing(o: Observation, now: nat, config: Config)
    | Accepting(key: Key, source: Text, receiptId: Text, at: nat)
    | Handing(key: Key, replacement: Text, at: nat)

  /** What a caller learns from one operation. */
  datatype Decision =
    | Refused(error: Error)
    | Decided(classification: Classification, certainty: Certainty, deadlineAt: nat, lastProgress: Option<Seen>,
              called: Option<(Classification, nat)>)
    | Done

  function HandFrom(s: State, k: Key, replacement: Text, at: nat, i: nat): State
    requires i <= |s.escalations|
    decreases |s.escalations| - i
  {
    if i == |s.escalations| then s
    else if !OpenFor(s.escalations[i], k, Stale) then HandFrom(s, k, replacement, at, i + 1)
    else HandFrom(State(s.health, s.escalations[i := Closed(s.escalations[i], HandoffReplaced(replacement, at))],
                        s.sequence + 1),
                  k, replacement, at, i + 1)
  }

  function Clear(s: State, h: Health, source: Text, receiptId: Text, at: nat): State {
    State(Put(s.health, HealthKey, h.(clearance := Some(Clearance(source, receiptId, at)), revision := h.revision + 1)),
          AcceptAll(s.escalations, HealthKey(h), source, at), s.sequence + 1)
  }

  function Accept(s: State, k: Key, source: Text, receiptId: Text, at: nat): State {
    var h := HealthAt(s, k);
    if h.None? || h.value.clearance.Some? then s else Clear(s, h.value, source, receiptId, at)
  }

  function Answer(a: Assessment): Decision {
    match a.outcome
    case Err(error) => Refused(error)
    case Ok(h) => Decided(h.classification, h.certainty, h.deadlineAt, h.lastProgress,
                          if a.raised.Some? then Some((a.raised.value.condition, a.raised.value.cooldownUntil))
                          else None)
  }

  function Perform(s: State, op: Op, eager: bool): (State, Decision) {
    match op
    case Assessing(o, now, config) =>
      var a := Assess(s, config, o, now, eager);
      (a.state, Answer(a))
    case Accepting(k, source, receiptId, at) => (Accept(s, k, source, receiptId, at), Done)
    case Handing(k, replacement, at) =>
      if Active(s, k, Stale) && replacement == k.0 then (s, Refused(NotHandedOff))
      else (HandFrom(s, k, replacement, at, 0), Done)
  }

  function Run(ops: seq<Op>, eager: bool): State {
    if ops == [] then EMPTY else Perform(Run(ops[..|ops| - 1], eager), ops[|ops| - 1], eager).0
  }

  function Decisions(ops: seq<Op>, eager: bool): seq<Decision> {
    if ops == [] then [] else
    Decisions(ops[..|ops| - 1], eager) + [Perform(Run(ops[..|ops| - 1], eager), ops[|ops| - 1], eager).1]
  }

  // ----- The two stores in lockstep -----

  /** The lazy store's record may be older than the eager one's, but it decides the same. */
  predicate SameHealth(l: Health, e: Health) {
    && l == e.(workState := l.workState, observedAt := l.observedAt, revision := l.revision)
    && l.observedAt <= e.observedAt
  }

  predicate SameEscalation(l: Escalation, e: Escalation) {
    l == e.(id := l.id, workState := l.workState)
  }

  predicate Same(l: State, e: State) {
    && |l.health| == |e.health| && (forall i :: 0 <= i < |l.health| ==> SameHealth(l.health[i], e.health[i]))
    && |l.escalations| == |e.escalations|
    && (forall i :: 0 <= i < |l.escalations| ==> SameEscalation(l.escalations[i], e.escalations[i]))
  }

  lemma FindSame<T, U, K>(xs: seq<T>, ys: seq<U>, f: T -> K, g: U -> K, k: K)
    requires |xs| == |ys| && forall i :: 0 <= i < |xs| ==> f(xs[i]) == g(ys[i])
    ensures Find(xs, f, k) == Find(ys, g, k)
  {
  }

  lemma HealthAtSame(l: State, e: State, k: Key)
    requires Same(l, e)
    ensures Find(l.health, HealthKey, k) == Find(e.health, HealthKey, k)
    ensures HealthAt(l, k).Some? <==> HealthAt(e, k).Some?
    ensures HealthAt(l, k).Some? ==> SameHealth(HealthAt(l, k).value, HealthAt(e, k).value)
  {
    FindSame(l.health, e.health, HealthKey, HealthKey, k);
  }

  lemma PutSame(l: State, e: State, x: Health, y: Health, m: nat, n: nat)
    requires Same(l, e) && SameHealth(x, y)
    ensures Same(State(Put(l.health, HealthKey, x), l.escalations, m),
                 State(Put(e.health, HealthKey, y), e.escalations, n))
  {
    HealthAtSame(l, e, HealthKey(x));
  }

  /** Storing only the eager store's new record keeps the stores alike when the old one decides the same. */
  lemma PutEager(l: State, e: State, y: Health, n: nat)
    requires Same(l, e) && HealthAt(l, HealthKey(y)).Some? && SameHealth(HealthAt(l, HealthKey(y)).value, y)
    ensures Same(l, State(Put(e.health, HealthKey, y), e.escalations, n))
  {
    HealthAtSame(l, e, HealthKey(y));
  }

  lemma {:induction false} IncidentsSame(xs: seq<Escalation>, ys: seq<Escalation>, k: Key, c: Classification)
    requires |xs| == |ys| && forall i :: 0 <= i < |xs| ==> SameEscalation(xs[i], ys[i])
    ensures |Incidents(xs, k, c)| == |Incidents(ys, k, c)|
    ensures forall i :: 0 <= i < |Incidents(xs, k, c)| ==>
              SameEscalation(Incidents(xs, k, c)[i], Incidents(ys, k, c)[i])
  {
    if xs != [] {
      IncidentsSame(xs[..|xs| - 1], ys[..|ys| - 1], k, c);
    }
  }

  lemma ActiveSame(l: State, e: State, k: Key, c: Classification)
    requires Same(l, e)
    ensures Active(l, k, c) <==> Active(e, k, c)
  {
    if Active(l, k, c) {
      var i :| 0 <= i < |l.escalations| && OpenFor(l.escalations[i], k, c);
      assert OpenFor(e.escalations[i], k, c);
    }
    if Active(e, k, c) {
      var i :| 0 <= i < |e.escalations| && OpenFor(e.escalations[i], k, c);
      assert SameEscalation(l.escalations[i], e.escalations[i]) && OpenFor(l.escalations[i], k, c);
    }
  }

  lemma {:induction false} ResolveSame(l: State, e: State, x: Health, y: Health, now: nat, i: nat)
    requires Same(l, e) && SameHealth(x, y) && i <= |l.escalations|
    ensures Same(ResolveFrom(l, x, now, i), ResolveFrom(e, y, now, i))
    ensures ResolveFrom(l, x, now, i).health == l.health && ResolveFrom(e, y, now, i).health == e.health
    decreases |l.escalations| - i
  {
    if i < |l.escalations| {
      assert SameEscalation(l.escalations[i], e.escalations[i]);
      if !Answers(x, l.escalations[i]) {
        ResolveSame(l, e, x, y, now, i + 1);
      } else {
        var l1 := State(l.health, l.escalations[i := Closed(l.escalations[i], ConditionCleared(now))], l.sequence + 1);
        var e1 := State(e.health, e.escalations[i := Closed(e.escalations[i], ConditionCleared(now))], e.sequence + 1);
        ResolveSame(l1, e1, x, y, now, i + 1);
      }
    }
  }

  lemma EscalateSame(l: State, e: State, x: Health, y: Health, now: nat)
    requires Same(l, e) && SameHealth(x, y)
    ensures Same(Escalate(l, x, now).state, Escalate(e, y, now).state)
    ensures Escalate(l, x, now).outcome.Ok? <==> Escalate(e, y, now).outcome.Ok?
    ensures Escalate(l, x, now).outcome.Err? ==> Escalate(l, x, now).outcome.error == Escalate(e, y, now).outcome.error
    ensures Escalate(l, x, now).outcome.Ok? ==>
              Escalate(l, x, now).outcome == Ok(x) && Escalate(e, y, now).outcome == Ok(y)
    ensures Escalate(l, x, now).raised.Some? <==> Escalate(e, y, now).raised.Some?
    ensures Escalate(l, x, now).raised.Some? ==>
              SameEscalation(Escalate(l, x, now).raised.value, Escalate(e, y, now).raised.value)
    ensures Escalate(l, x, now).state.health == l.health && Escalate(e, y, now).state.health == e.health
  {
    IncidentsSame(l.escalations, e.escalations, HealthKey(x), x.classification);
    ActiveSame(l, e, HealthKey(x), x.classification);
  }

  lemma SettleSame(l: State, e: State, x: Health, y: Health, now: nat)
    requires Same(l, e) && SameHealth(x, y)
    ensures Same(Settle(l, x, now).state, Settle(e, y, now).state)
    ensures Settle(l, x, now).outcome.Ok? <==> Settle(e, y, now).outcome.Ok?
    ensures Settle(l, x, now).outcome.Err? ==> Settle(l, x, now).outcome.error == Settle(e, y, now).outcome.error
    ensures Settle(l, x, now).outcome.Ok? ==> Settle(l, x, now).outcome == Ok(x) && Settle(e, y, now).outcome == Ok(y)
    ensures Settle(l, x, now).raised.Some? <==> Settle(e, y, now).raised.Some?
    ensures Settle(l, x, now).raised.Some? ==>
              SameEscalation(Settle(l, x, now).raised.value, Settle(e, y, now).raised.value)
    ensures Settle(l, x, now).state.health == l.health && Settle(e, y, now).state.health == e.health
  {
    ResolveSame(l, e, x, y, now, 0);
    EscalateSame(ResolveFrom(l, x, now, 0), ResolveFrom(e, y, now, 0), x, y, now);
  }

  lemma ObserveSame(p: Option<Health>, q: Option<Health>, o: Observation, now: nat, deadlineMs: nat, cooldownMs: nat,
          max: nat)
    requires p.Some? <==> q.Some?
    requires p.Some? ==> SameHealth(p.value, q.value) && q.value.observedAt <= now && HealthKey(q.value) == KeyOf(o)
    ensures var a := Observe(p, o, now, deadlineMs, cooldownMs, max);
            var b := Observe(q, o, now, deadlineMs, cooldownMs, max);
            && (a.Ok? <==> b.Ok?) && (a.Err? ==> a.error == b.error)
            && (a.Ok? ==> SameHealth(a.value, b.value) && HealthKey(b.value) == KeyOf(o) && b.value.observedAt == now)
            && (a.Ok? && !WorthRecording(p, o, a.value) ==> p.Some? && SameHealth(p.value, b.value))
  {
  }

  predicate SameAssessment(a: Assessment, b: Assessment) {
    Same(a.state, b.state) && Answer(a) == Answer(b)
  }

  lemma SettleAlike(l: State, e: State, x: Health, y: Health, now: nat)
    requires Same(l, e) && SameHealth(x, y)
    ensures SameAssessment(Settle(l, x, now), Settle(e, y, now))
  {
    SettleSame(l, e, x, y, now);
  }

  /** Both stores record. */
  lemma BothRecord(l: State, e: State, x: Health, y: Health, now: nat)
    requires Same(l, e) && SameHealth(x, y)
    ensures SameAssessment(Settle(Stored(l, x), x, now), Settle(Stored(e, y), y, now))
  {
    PutSame(l, e, x, y, l.sequence + 1, e.sequence + 1);
    SettleAlike(Stored(l, x), Stored(e, y), x, y, now);
  }

  /** Only the eager store records. */
  lemma OneRecords(l: State, e: State, x: Health, y: Health, now: nat)
    requires Same(l, e) && HealthAt(l, HealthKey(y)) == Some(x) && SameHealth(x, y)
    ensures SameAssessment(Settle(l, x, now), Settle(Stored(e, y), y, now))
  {
    PutEager(l, e, y, e.sequence + 1);
    SettleAlike(l, Stored(e, y), x, y, now);
  }

  lemma AssessSame(l: State, e: State, c: Config, o: Observation, now: nat)
    requires Same(l, e) && (HealthAt(e, KeyOf(o)).Some? ==> HealthAt(e, KeyOf(o)).value.observedAt <= now)
    ensures SameAssessment(Assess(l, c, o, now, false), Assess(e, c, o, now, true))
  {
    var p, q := HealthAt(l, KeyOf(o)), HealthAt(e, KeyOf(o));
    HealthAtSame(l, e, KeyOf(o));
    ObserveSame(p, q, o, now, DeadlineOf(c, o), c.cooldownMs, c.maxEscalations);
    var a := Observe(p, o, now, DeadlineOf(c, o), c.cooldownMs, c.maxEscalations);
    var b := Observe(q, o, now, DeadlineOf(c, o), c.cooldownMs, c.maxEscalations);
    if a.Ok? {
      if WorthRecording(p, o, a.value) {
        BothRecord(l, e, a.value, b.value, now);
      } else {
        OneRecords(l, e, p.value, b.value, now);
      }
    }
  }

  /** The clock reads earlier than this attempt's own last observation, but not than its last recorded one. */
  predicate SteppedBack(l: State, e: State, o: Observation, now: nat) {
    && HealthAt(l, KeyOf(o)).Some? && HealthAt(e, KeyOf(o)).Some?
    && HealthAt(l, KeyOf(o)).value.observedAt <= now < HealthAt(e, KeyOf(o)).value.observedAt
  }

  /** Behind a skipped observation only the eager store's clock guard refuses. */
  lemma SteppedBackDiffers(l: State, e: State, c: Config, o: Observation, now: nat)
    requires Same(l, e) && SteppedBack(l, e, o, now)
    ensures Answer(Assess(e, c, o, now, true)) == Refused(ClockBackwards)
    ensures Answer(Assess(l, c, o, now, false)) != Refused(ClockBackwards)
  {
  }

  /** The lazy store answers as the eager one if and only if the clock has not stepped back behind an
      observation that the lazy store skipped. */
  lemma AnswersAlikeIff(l: State, e: State, c: Config, o: Observation, now: nat)
    requires Same(l, e)
    ensures Answer(Assess(l, c, o, now, false)) == Answer(Assess(e, c, o, now, true)) <==> !SteppedBack(l, e, o, now)
    ensures !SteppedBack(l, e, o, now) ==> Same(Assess(l, c, o, now, false).state, Assess(e, c, o, now, true).state)
  {
    HealthAtSame(l, e, KeyOf(o));
    if SteppedBack(l, e, o, now) {
      SteppedBackDiffers(l, e, c, o, now);
    } else if HealthAt(e, KeyOf(o)).None? || HealthAt(e, KeyOf(o)).value.observedAt <= now {
      AssessSame(l, e, c, o, now);
    }
  }

  lemma AcceptSame(l: State, e: State, k: Key, source: Text, receiptId: Text, at: nat)
    requires Same(l, e)
    ensures Same(Accept(l, k, source, receiptId, at), Accept(e, k, source, receiptId, at))
  {
    HealthAtSame(l, e, k);
    if HealthAt(l, k).Some? && HealthAt(l, k).value.clearance.None? {
      var x, y := HealthAt(l, k).value, HealthAt(e, k).value;
      var c := Some(Clearance(source, receiptId, at));
      PutSame(l, e, x.(clearance := c, revision := x.revision + 1),
              y.(clearance := c, revision := y.revision + 1), 0, 0);
      forall i | 0 <= i < |l.escalations|
        ensures SameEscalation(Accepted(l.escalations[i], k, source, at), Accepted(e.escalations[i], k, source, at))
      {
        assert SameEscalation(l.escalations[i], e.escalations[i]);
      }
    }
  }

  lemma {:induction false} HandSame(l: State, e: State, k: Key, replacement: Text, at: nat, i: nat)
    requires Same(l, e) && i <= |l.escalations|
    ensures Same(HandFrom(l, k, replacement, at, i), HandFrom(e, k, replacement, at, i))
    ensures HandFrom(e, k, replacement, at, i).health == e.health
    decreases |l.escalations| - i
  {
    if i < |l.escalations| {
      assert SameEscalation(l.escalations[i], e.escalations[i]);
      if !OpenFor(l.escalations[i], k, Stale) {
        HandSame(l, e, k, replacement, at, i + 1);
      } else {
        var r := HandoffReplaced(replacement, at);
        HandSame(State(l.health, l.escalations[i := Closed(l.escalations[i], r)], l.sequence + 1),
                 State(e.health, e.escalations[i := Closed(e.escalations[i], r)], e.sequence + 1),
                 k, replacement, at, i + 1);
      }
    }
  }

  /** The step of a run at which the two stores part, if they do. */
  predicate Parts(l: State, e: State, op: Op) {
    op.Assessing? && SteppedBack(l, e, op.o, op.now)
  }

  lemma StepAlikeIff(l: State, e: State, op: Op)
    requires Same(l, e)
    ensures Perform(l, op, false).1 == Perform(e, op, true).1 <==> !Parts(l, e, op)
    ensures !Parts(l, e, op) ==> Same(Perform(l, op, false).0, Perform(e, op, true).0)
  {
    match op {
      case Assessing(o, now, config) => AnswersAlikeIff(l, e, config, o, now);
      case Accepting(k, source, receiptId, at) => AcceptSame(l, e, k, source, receiptId, at);
      case Handing(k, replacement, at) =>
        ActiveSame(l, e, k, Stale);
        HandSame(l, e, k, replacement, at, 0);
    }
  }

  predicate PartsAt(ops: seq<Op>, i: nat)
    requires i < |ops|
  {
    Parts(Run(ops[..i], false), Run(ops[..i], true), ops[i])
  }

  predicate NeverParts(ops: seq<Op>) {
    forall i :: 0 <= i < |ops| ==> !PartsAt(ops, i)
  }

  /** Over every history, whatever the clock reads: recording only what changed decides exactly what recording
      every observation decides, if and only if no observation steps back behind a skipped one. */
  lemma {:induction false} LazyAgreesIff(ops: seq<Op>)
    ensures Decisions(ops, false) == Decisions(ops, true) <==> NeverParts(ops)
    ensures NeverParts(ops) ==> Same(Run(ops, false), Run(ops, true))
    ensures |Decisions(ops, false)| == |Decisions(ops, true)| == |ops|
  {
    if ops != [] {
      var n := |ops| - 1;
      LazyAgreesIff(ops[..n]);
      NeverPartsStep(ops);
      if NeverParts(ops[..n]) {
        StepAlikeIff(Run(ops[..n], false), Run(ops[..n], true), ops[n]);
      }
      DecisionsStep(ops);
    }
  }

  lemma PartsBefore(ops: seq<Op>, n: nat, i: nat)
    requires i < n <= |ops|
    ensures PartsAt(ops[..n], i) == PartsAt(ops, i)
  {
    assert ops[..n][..i] == ops[..i];
  }

  lemma NeverPartsStep(ops: seq<Op>)
    requires ops != []
    ensures NeverParts(ops) <==> NeverParts(ops[..|ops| - 1]) && !PartsAt(ops, |ops| - 1)
  {
    var n := |ops| - 1;
    forall i | 0 <= i < n ensures PartsAt(ops[..n], i) == PartsAt(ops, i) {
      PartsBefore(ops, n, i);
    }
  }

  lemma DecisionsStep(ops: seq<Op>)
    requires ops != [] && |Decisions(ops[..|ops| - 1], false)| == |Decisions(ops[..|ops| - 1], true)|
    ensures var n := |ops| - 1;
            Decisions(ops, false) == Decisions(ops, true) <==>
              && Decisions(ops[..n], false) == Decisions(ops[..n], true)
              && Perform(Run(ops[..n], false), ops[n], false).1 == Perform(Run(ops[..n], true), ops[n], true).1
  {
    var n := |ops| - 1;
    var l, e := Decisions(ops[..n], false), Decisions(ops[..n], true);
    var x := Perform(Run(ops[..n], false), ops[n], false).1;
    var y := Perform(Run(ops[..n], true), ops[n], true).1;
    assert (l + [x])[..|l|] == l && (e + [y])[..|e|] == e;
    assert (l + [x])[|l|] == x && (e + [y])[|e|] == y;
  }

  // ----- Each attempt in its own time order -----

  /** Observations of one attempt come in time order; those of different attempts need not. */
  predicate InOwnOrder(ops: seq<Op>) {
    forall i, j | 0 <= i < j < |ops| && ops[i].Assessing? && ops[j].Assessing?
                  && KeyOf(ops[i].o) == KeyOf(ops[j].o) ::
      ops[i].now <= ops[j].now
  }

  predicate SeenIn(ops: seq<Op>, k: Key, at: nat) {
    exists i :: 0 <= i < |ops| && ops[i].Assessing? && KeyOf(ops[i].o) == k && ops[i].now == at
  }

  /** What is on record was observed at the time on record. */
  predicate Timed(s: State, ops: seq<Op>) {
    forall i :: 0 <= i < |s.health| ==> SeenIn(ops, HealthKey(s.health[i]), s.health[i].observedAt)
  }

  lemma StepTimed(s: State, ops: seq<Op>, op: Op)
    requires Timed(s, ops)
    ensures Timed(Perform(s, op, true).0, ops + [op])
  {
    var t := Perform(s, op, true).0;
    match op {
      case Assessing(o, now, c) => AssessTimes(s, c, o, now);
      case Accepting(k, source, receiptId, at) => AcceptTimes(s, k, source, receiptId, at);
      case Handing(k, replacement, at) => HandSame(s, s, k, replacement, at, 0);
    }
    forall i | 0 <= i < |t.health| ensures SeenIn(ops + [op], HealthKey(t.health[i]), t.health[i].observedAt) {
      var all := ops + [op];
      if j :| 0 <= j < |s.health| && SameTime(s.health[j], t.health[i]) {
        var m :| 0 <= m < |ops| && ops[m].Assessing? && KeyOf(ops[m].o) == HealthKey(s.health[j])
                 && ops[m].now == s.health[j].observedAt;
        assert all[m] == ops[m];
      } else {
        assert all[|ops|] == op;
      }
    }
  }

  predicate SameTime(a: Health, b: Health) {
    HealthKey(a) == HealthKey(b) && a.observedAt == b.observedAt
  }

  ghost predicate TimesFrom(s: State, t: State) {
    forall i :: 0 <= i < |t.health| ==> exists j :: 0 <= j < |s.health| && SameTime(s.health[j], t.health[i])
  }

  lemma AcceptTimes(s: State, k: Key, source: Text, receiptId: Text, at: nat)
    ensures TimesFrom(s, Accept(s, k, source, receiptId, at))
  {
    var t := Accept(s, k, source, receiptId, at);
    forall i | 0 <= i < |t.health| ensures exists j :: 0 <= j < |s.health| && SameTime(s.health[j], t.health[i]) {
      assert SameTime(s.health[i], t.health[i]);
    }
  }

  lemma AssessTimes(s: State, c: Config, o: Observation, now: nat)
    ensures var t := Assess(s, c, o, now, true).state;
            forall i :: 0 <= i < |t.health| ==>
              || (HealthKey(t.health[i]) == KeyOf(o) && t.health[i].observedAt == now)
              || exists j :: 0 <= j < |s.health| && SameTime(s.health[j], t.health[i])
  {
    var observed := Observe(HealthAt(s, KeyOf(o)), o, now, DeadlineOf(c, o), c.cooldownMs, c.maxEscalations);
    var t := Assess(s, c, o, now, true).state;
    if observed.Ok? {
      SettleHealth(Stored(s, observed.value), observed.value, now);
    }
    forall i | 0 <= i < |t.health|
      ensures || (HealthKey(t.health[i]) == KeyOf(o) && t.health[i].observedAt == now)
              || exists j :: 0 <= j < |s.health| && SameTime(s.health[j], t.health[i])
    {
      if i < |s.health| && t.health[i] == s.health[i] {
        assert SameTime(s.health[i], t.health[i]);
      }
    }
  }

  lemma SettleHealth(s: State, h: Health, now: nat)
    ensures Settle(s, h, now).state.health == s.health
  {
    forall x | x in s.health ensures SameHealth(x, x) {
    }
    SettleSame(s, s, h, h, now);
  }

  lemma {:induction false} RunTimed(ops: seq<Op>)
    ensures Timed(Run(ops, true), ops)
  {
    if ops != [] {
      var n := |ops| - 1;
      RunTimed(ops[..n]);
      StepTimed(Run(ops[..n], true), ops[..n], ops[n]);
      assert ops[..n] + [ops[n]] == ops;
    }
  }

  /** In particular the stores decide alike over every history that observes each attempt in time order: the same
      classes, certainties, deadlines, calls, cooldowns and refusals. */
  lemma LazyRefinesEager(ops: seq<Op>)
    requires InOwnOrder(ops)
    ensures Decisions(ops, false) == Decisions(ops, true)
    ensures Same(Run(ops, false), Run(ops, true))
  {
    forall i | 0 <= i < |ops| ensures !PartsAt(ops, i) {
      if ops[i].Assessing? {
        NotBehind(ops, i);
      }
    }
    LazyAgreesIff(ops);
  }

  lemma NotBehind(ops: seq<Op>, i: nat)
    requires InOwnOrder(ops) && i < |ops| && ops[i].Assessing?
    ensures !SteppedBack(Run(ops[..i], false), Run(ops[..i], true), ops[i].o, ops[i].now)
  {
    var e, k := Run(ops[..i], true), KeyOf(ops[i].o);
    RunTimed(ops[..i]);
    if HealthAt(e, k).Some? {
      var at := Find(e.health, HealthKey, k);
      assert SeenIn(ops[..i], HealthKey(e.health[at]), e.health[at].observedAt);
      var m :| 0 <= m < i && ops[..i][m].Assessing? && KeyOf(ops[..i][m].o) == k
               && ops[..i][m].now == e.health[at].observedAt;
      assert ops[m].now <= ops[i].now;
    }
  }

  const EXAMPLE := Observation("a", 1, Dsh, Work(1, 1, 1), ActiveWork, Available, KnownActive,
                               Some(Progress("session", "1")), None, None)
  const LIMITS := Config(100, 100, 10, 2)

  function At(now: nat): Op {
    Assessing(EXAMPLE, now, LIMITS)
  }

  const FIRST := Health("a", 1, Dsh, Work(1, 1, 1), ActiveWork, Progressing, Known, 100, 10, 2, 101, 1,
                        Some(Seen(Progress("session", "1"), 1)), 1, None, None, None)

  lemma AfterFirst(eager: bool)
    ensures Run([At(1)], eager) == State([FIRST], [], 1)
  {
    assert [At(1)][..0] == [];
    assert Observe(None, EXAMPLE, 1, 100, 10, 2) == Ok(FIRST);
  }

  lemma AfterSecond(eager: bool)
    ensures Run([At(1), At(9)], eager)
         == if eager then State([FIRST.(observedAt := 9, revision := 2)], [], 2) else State([FIRST], [], 1)
  {
    AfterFirst(eager);
    assert [At(1), At(9)][..1] == [At(1)];
    assert HealthAt(State([FIRST], [], 1), ("a", 1)) == Some(FIRST);
  }

  /** The condition does fail: here a clock that steps back behind a skipped observation is refused only when
      every observation is recorded. */
  lemma ClockCheckIsWeaker(eager: bool)
    ensures Perform(Run([At(1), At(9)], eager), At(5), eager).1 == Refused(ClockBackwards) <==> eager
  {
    AfterSecond(false);
    AfterSecond(true);
    SteppedBackDiffers(Run([At(1), At(9)], false), Run([At(1), At(9)], true), LIMITS, EXAMPLE, 5);
  }
}
