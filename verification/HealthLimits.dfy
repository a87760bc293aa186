/** Limits on operator calls over whole runs of the health store, whatever the clock and the configuration do. */
module HealthLimits {
  import opened Wrappers
  import opened Identities
  import opened Keyed
  import opened HealthModel
  import opened HealthRuns

  /** Calls for one attempt and one condition: within the pinned number, each after the one before was resolved
      and its cooldown had passed. */
  predicate Paced(h: Health, calls: seq<Escalation>) {
    && |calls| <= h.maxEscalations
    && forall i :: 0 <= i < |calls| - 1 ==>
         calls[i].resolution.Some? && calls[i].cooldownUntil + h.cooldownMs <= calls[i + 1].cooldownUntil
  }

  predicate DeadlineOk(h: Health) {
    h.lastProgress.Some? ==> h.deadlineAt == h.lastProgress.value.at + h.deadlineMs
  }

  predicate IdsClimb(s: State) {
    && (forall i, j :: 0 <= i < j < |s.escalations| ==> s.escalations[i].id < s.escalations[j].id)
    && (forall i :: 0 <= i < |s.escalations| ==> s.escalations[i].id <= s.sequence)
  }

  predicate Owned(s: State) {
    forall i :: 0 <= i < |s.escalations| ==> HealthAt(s, EscalationKey(s.escalations[i])).Some?
  }

  ghost predicate Inv(s: State) {
    && Unique(s.health, HealthKey) && (forall i :: 0 <= i < |s.health| ==> DeadlineOk(s.health[i]))
    && IdsClimb(s) && Owned(s) && AllCallsPaced(s)
  }

  ghost predicate AllCallsPaced(s: State) {
    forall k, c :: HealthAt(s, k).Some? ==> Paced(HealthAt(s, k).value, Incidents(s.escalations, k, c))
  }

  // ----- Calls under change -----

  /** An escalation later: the same call, and once resolved always resolved. */
  predicate Follows(a: Escalation, b: Escalation) {
    && a.id == b.id && EscalationKey(a) == EscalationKey(b) && a.condition == b.condition
    && a.cooldownUntil == b.cooldownUntil
    && (a.resolution.Some? ==> b == a)
  }

  predicate AllFollow(xs: seq<Escalation>, ys: seq<Escalation>) {
    |xs| == |ys| && forall i :: 0 <= i < |xs| ==> Follows(xs[i], ys[i])
  }

  lemma {:induction false} IncidentsFollow(xs: seq<Escalation>, ys: seq<Escalation>, k: Key, c: Classification)
    requires AllFollow(xs, ys)
    ensures AllFollow(Incidents(xs, k, c), Incidents(ys, k, c))
  {
    if xs != [] {
      IncidentsFollow(xs[..|xs| - 1], ys[..|ys| - 1], k, c);
    }
  }

  lemma {:induction false} IncidentsIn(es: seq<Escalation>, k: Key, c: Classification)
    ensures forall e :: e in Incidents(es, k, c) <==> e in es && EscalationKey(e) == k && e.condition == c
  {
    if es != [] {
      IncidentsIn(es[..|es| - 1], k, c);
      assert es == es[..|es| - 1] + [es[|es| - 1]];
    }
  }

  lemma PacedFollows(h: Health, g: Health, xs: seq<Escalation>, ys: seq<Escalation>)
    requires AllFollow(xs, ys) && Paced(h, xs) && g.maxEscalations == h.maxEscalations && g.cooldownMs == h.cooldownMs
    ensures Paced(g, ys)
  {
    forall i | 0 <= i < |ys| - 1
      ensures ys[i].resolution.Some? && ys[i].cooldownUntil + g.cooldownMs <= ys[i + 1].cooldownUntil
    {
      assert Follows(xs[i], ys[i]) && Follows(xs[i + 1], ys[i + 1]);
    }
  }

  lemma HealthAtPut(s: State, h: Health, es: seq<Escalation>, n: nat, k: Key)
    ensures HealthAt(State(Put(s.health, HealthKey, h), es, n), k) == if k == HealthKey(h) then Some(h)
                                                                      else HealthAt(s, k)
  {
    if Find(s.health, HealthKey, HealthKey(h)) < |s.health| {
      FindSameKeys(s.health, Put(s.health, HealthKey, h), HealthKey, k);
    } else {
      FindAppend(s.health, HealthKey, h, k);
    }
  }

  /** What an attempt's record keeps: its pins always, its deadline until there is new progress. */
  predicate Pinned(a: Health, b: Health) {
    && a.provider == b.provider && a.work == b.work && a.deadlineMs == b.deadlineMs && a.cooldownMs == b.cooldownMs
    && a.maxEscalations == b.maxEscalations && (a.clearance.Some? ==> b.clearance == a.clearance)
    && (b.lastProgress.None? ==> a.lastProgress.None? && b.deadlineAt == a.deadlineAt)
    && DeadlineOk(b)
  }

  /** One step forward: records keep their pins and escalations only resolve or are added. */
  ghost predicate Grows(s: State, t: State) {
    && (forall k :: HealthAt(s, k).Some? ==> HealthAt(t, k).Some? && Pinned(HealthAt(s, k).value, HealthAt(t, k).value))
    && |s.escalations| <= |t.escalations| && AllFollow(s.escalations, t.escalations[..|s.escalations|])
  }

  lemma GrowsTwice(s: State, t: State, u: State)
    requires Grows(s, t) && Grows(t, u)
    ensures Grows(s, u)
  {
    forall k | HealthAt(s, k).Some? ensures HealthAt(u, k).Some? && Pinned(HealthAt(s, k).value, HealthAt(u, k).value) {
      assert Pinned(HealthAt(s, k).value, HealthAt(t, k).value) && Pinned(HealthAt(t, k).value, HealthAt(u, k).value);
    }
    forall i | 0 <= i < |s.escalations| ensures Follows(s.escalations[i], u.escalations[i]) {
      assert Follows(s.escalations[i], t.escalations[..|s.escalations|][i]);
      assert Follows(t.escalations[i], u.escalations[..|t.escalations|][i]);
    }
  }

  lemma GrowsAlready(s: State)
    requires Inv(s)
    ensures Grows(s, s)
  {
    forall k | HealthAt(s, k).Some? ensures Pinned(HealthAt(s, k).value, HealthAt(s, k).value) {
    }
  }

  /** Storing a record with the same pins, or a first one. */
  lemma PutKeeps(s: State, h: Health, es: seq<Escalation>, n: nat)
    requires Inv(s) && DeadlineOk(h) && n >= s.sequence && AllFollow(s.escalations, es)
    requires HealthAt(s, HealthKey(h)).Some? ==> Pinned(HealthAt(s, HealthKey(h)).value, h)
    ensures Inv(State(Put(s.health, HealthKey, h), es, n)) && Grows(s, State(Put(s.health, HealthKey, h), es, n))
  {
    var t := State(Put(s.health, HealthKey, h), es, n);
    PutUnique(s.health, HealthKey, h);
    forall i | 0 <= i < |es| ensures HealthAt(t, EscalationKey(es[i])).Some? && es[i].id == s.escalations[i].id {
      assert Follows(s.escalations[i], es[i]);
      HealthAtPut(s, h, es, n, EscalationKey(es[i]));
    }
    forall k, c | HealthAt(t, k).Some? ensures Paced(HealthAt(t, k).value, Incidents(es, k, c)) {
      HealthAtPut(s, h, es, n, k);
      PutPaced(s, h, es, k, c);
    }
    forall k | HealthAt(s, k).Some? ensures HealthAt(t, k).Some? && Pinned(HealthAt(s, k).value, HealthAt(t, k).value) {
      HealthAtPut(s, h, es, n, k);
    }
    assert t.escalations[..|s.escalations|] == t.escalations;
  }

  lemma PutPaced(s: State, h: Health, es: seq<Escalation>, k: Key, c: Classification)
    requires Owned(s) && AllCallsPaced(s) && AllFollow(s.escalations, es)
    requires HealthAt(s, HealthKey(h)).Some? ==> Pinned(HealthAt(s, HealthKey(h)).value, h)
    requires k == HealthKey(h) || HealthAt(s, k).Some?
    ensures Paced(if k == HealthKey(h) then h else HealthAt(s, k).value, Incidents(es, k, c))
  {
    IncidentsFollow(s.escalations, es, k, c);
    if HealthAt(s, k).Some? {
      PacedFollows(HealthAt(s, k).value, if k == HealthKey(h) then h else HealthAt(s, k).value,
                   Incidents(s.escalations, k, c), Incidents(es, k, c));
    } else {
      CallHasRecord(s, k, c);
    }
  }

  lemma CallHasRecord(s: State, k: Key, c: Classification)
    requires Owned(s)
    ensures Incidents(s.escalations, k, c) != [] ==> HealthAt(s, k).Some?
  {
    IncidentsIn(s.escalations, k, c);
    if Incidents(s.escalations, k, c) != [] {
      var e := Incidents(s.escalations, k, c)[0];
      assert e in Incidents(s.escalations, k, c);
      var i :| 0 <= i < |s.escalations| && s.escalations[i] == e;
      assert HealthAt(s, EscalationKey(s.escalations[i])).Some?;
    }
  }

  /** Resolving escalations alone. */
  lemma FollowKeeps(s: State, es: seq<Escalation>, n: nat)
    requires Inv(s) && n >= s.sequence && AllFollow(s.escalations, es)
    ensures Inv(State(s.health, es, n)) && Grows(s, State(s.health, es, n))
  {
    var t := State(s.health, es, n);
    forall i | 0 <= i < |es| ensures HealthAt(t, EscalationKey(es[i])).Some? && es[i].id == s.escalations[i].id {
      assert Follows(s.escalations[i], es[i]);
      assert HealthAt(s, EscalationKey(s.escalations[i])).Some?;
    }
    forall k, c | HealthAt(t, k).Some? ensures Paced(HealthAt(t, k).value, Incidents(es, k, c)) {
      IncidentsFollow(s.escalations, es, k, c);
      PacedFollows(HealthAt(s, k).value, HealthAt(t, k).value, Incidents(s.escalations, k, c), Incidents(es, k, c));
    }
    assert t.escalations[..|s.escalations|] == t.escalations;
    forall k | HealthAt(s, k).Some? ensures Pinned(HealthAt(s, k).value, HealthAt(t, k).value) {
    }
  }

  lemma {:induction false} ResolveFollows(s: State, h: Health, now: nat, i: nat)
    requires i <= |s.escalations|
    ensures AllFollow(s.escalations, ResolveFrom(s, h, now, i).escalations)
    ensures ResolveFrom(s, h, now, i).health == s.health && ResolveFrom(s, h, now, i).sequence >= s.sequence
    decreases |s.escalations| - i
  {
    if i < |s.escalations| {
      if !Answers(h, s.escalations[i]) {
        ResolveFollows(s, h, now, i + 1);
      } else {
        var t := State(s.health, s.escalations[i := Closed(s.escalations[i], ConditionCleared(now))], s.sequence + 1);
        ResolveFollows(t, h, now, i + 1);
        FollowTwice(s.escalations, t.escalations, ResolveFrom(t, h, now, i + 1).escalations);
      }
    }
  }

  lemma FollowTwice(xs: seq<Escalation>, ys: seq<Escalation>, zs: seq<Escalation>)
    requires AllFollow(xs, ys) && AllFollow(ys, zs)
    ensures AllFollow(xs, zs)
  {
    forall i | 0 <= i < |xs| ensures Follows(xs[i], zs[i]) {
      assert Follows(xs[i], ys[i]) && Follows(ys[i], zs[i]);
    }
  }

  lemma {:induction false} HandFollows(s: State, k: Key, replacement: Text, at: nat, i: nat)
    requires i <= |s.escalations|
    ensures AllFollow(s.escalations, HandFrom(s, k, replacement, at, i).escalations)
    ensures HandFrom(s, k, replacement, at, i).health == s.health
            && HandFrom(s, k, replacement, at, i).sequence >= s.sequence
    decreases |s.escalations| - i
  {
    if i < |s.escalations| {
      if !OpenFor(s.escalations[i], k, Stale) {
        HandFollows(s, k, replacement, at, i + 1);
      } else {
        var t := State(s.health, s.escalations[i := Closed(s.escalations[i], HandoffReplaced(replacement, at))],
                       s.sequence + 1);
        HandFollows(t, k, replacement, at, i + 1);
        FollowTwice(s.escalations, t.escalations, HandFrom(t, k, replacement, at, i + 1).escalations);
      }
    }
  }

  /** A call that is due keeps the pace. */
  lemma CallPaced(s: State, h: Health, now: nat, e: Escalation)
    requires AllCallsPaced(s) && Due(s, h, now) && HealthAt(s, HealthKey(h)) == Some(h)
    requires EscalationKey(e) == HealthKey(h) && e.condition == h.classification
             && e.cooldownUntil == now + h.cooldownMs
    ensures Paced(h, Incidents(s.escalations + [e], HealthKey(h), h.classification))
  {
    var k, c := HealthKey(h), h.classification;
    var past := Incidents(s.escalations, k, c);
    assert (s.escalations + [e])[..|s.escalations|] == s.escalations;
    assert Incidents(s.escalations + [e], k, c) == past + [e];
    if past != [] {
      IncidentsIn(s.escalations, k, c);
      var last := past[|past| - 1];
      assert last in past;
      var i :| 0 <= i < |s.escalations| && s.escalations[i] == last;
      assert !OpenFor(s.escalations[i], k, c);
    }
  }

  lemma OtherCalls(es: seq<Escalation>, e: Escalation, k: Key, c: Classification)
    requires EscalationKey(e) != k || e.condition != c
    ensures Incidents(es + [e], k, c) == Incidents(es, k, c)
  {
    assert (es + [e])[..|es|] == es;
  }

  lemma CallKeeps(s: State, h: Health, now: nat, e: Escalation, t: State)
    requires Inv(s) && Due(s, h, now) && HealthAt(s, HealthKey(h)) == Some(h)
    requires e == Raised(h, s.sequence + 1, now + h.cooldownMs)
             && t == State(s.health, s.escalations + [e], s.sequence + 1)
    ensures Inv(t) && Grows(s, t)
  {
    CallOwned(s, t, e);
    forall k, c | HealthAt(t, k).Some? ensures Paced(HealthAt(t, k).value, Incidents(t.escalations, k, c)) {
      assert HealthAt(t, k) == HealthAt(s, k);
      if k == HealthKey(h) && c == h.classification {
        CallPaced(s, h, now, e);
      } else {
        OtherCalls(s.escalations, e, k, c);
      }
    }
  }

  lemma EscalateKeeps(s: State, h: Health, now: nat)
    requires Inv(s) && HealthAt(s, HealthKey(h)) == Some(h)
    ensures Inv(Escalate(s, h, now).state) && Grows(s, Escalate(s, h, now).state)
  {
    if Due(s, h, now) && SafeSum(now, h.cooldownMs) {
      var e := Raised(h, s.sequence + 1, now + h.cooldownMs);
      var t := State(s.health, s.escalations + [e], s.sequence + 1);
      assert Escalate(s, h, now).state == t;
      CallKeeps(s, h, now, e, t);
    } else {
      assert Escalate(s, h, now).state == s;
      GrowsAlready(s);
    }
  }

  lemma CallOwned(s: State, t: State, e: Escalation)
    requires Inv(s) && t == State(s.health, s.escalations + [e], s.sequence + 1)
    requires e.id == s.sequence + 1 && HealthAt(s, EscalationKey(e)).Some?
    ensures IdsClimb(t) && Owned(t) && Grows(s, t)
  {
    forall i | 0 <= i < |t.escalations| ensures HealthAt(t, EscalationKey(t.escalations[i])).Some? {
      if i < |s.escalations| {
        assert HealthAt(s, EscalationKey(s.escalations[i])).Some?;
      }
    }
    assert t.escalations[..|s.escalations|] == s.escalations;
    forall k | HealthAt(s, k).Some? ensures HealthAt(t, k) == HealthAt(s, k) && DeadlineOk(HealthAt(s, k).value) {
    }
  }

  lemma SettleKeeps(s: State, h: Health, now: nat)
    requires Inv(s) && HealthAt(s, HealthKey(h)) == Some(h)
    ensures Inv(Settle(s, h, now).state) && Grows(s, Settle(s, h, now).state)
  {
    ResolveFollows(s, h, now, 0);
    var t := ResolveFrom(s, h, now, 0);
    FollowKeeps(s, t.escalations, t.sequence);
    assert HealthAt(t, HealthKey(h)) == HealthAt(s, HealthKey(h));
    EscalateKeeps(t, h, now);
    GrowsTwice(s, t, Settle(s, h, now).state);
  }

  lemma RecordKeeps(s: State, next: Health, now: nat)
    requires Inv(s) && DeadlineOk(next)
    requires HealthAt(s, HealthKey(next)).Some? ==> Pinned(HealthAt(s, HealthKey(next)).value, next)
    ensures var t := State(Put(s.health, HealthKey, next), s.escalations, s.sequence + 1);
            Inv(Settle(t, next, now).state) && Grows(s, Settle(t, next, now).state)
  {
    var t := State(Put(s.health, HealthKey, next), s.escalations, s.sequence + 1);
    PutKeeps(s, next, s.escalations, s.sequence + 1);
    HealthAtPut(s, next, s.escalations, s.sequence + 1, HealthKey(next));
    SettleKeeps(t, next, now);
    GrowsTwice(s, t, Settle(t, next, now).state);
  }

  lemma ObservePinned(prior: Option<Health>, o: Observation, now: nat, deadlineMs: nat, cooldownMs: nat, max: nat)
    requires Observe(prior, o, now, deadlineMs, cooldownMs, max).Ok? && (prior.Some? ==> DeadlineOk(prior.value))
    ensures var next := Observe(prior, o, now, deadlineMs, cooldownMs, max).value;
            DeadlineOk(next) && HealthKey(next) == KeyOf(o) && (prior.Some? ==> Pinned(prior.value, next))
  {
  }

  /** Staleness is measured from the last progress on record by the deadline the attempt's first observation
      pinned, it needs a live, reachable runtime with nothing else to say, and known activity does not excuse it. */
  lemma StaleIff(prior: Health, seen: Seen, o: Observation, now: nat, deadlineMs: nat, cooldownMs: nat, max: nat)
    requires DeadlineOk(prior) && prior.lastProgress == Some(seen)
    requires Observe(Some(prior), o, now, deadlineMs, cooldownMs, max).Ok?
    ensures Observe(Some(prior), o, now, deadlineMs, cooldownMs, max).value.classification == Stale <==>
              && o.workState == ActiveWork && o.availability == Available
              && o.execution in {KnownActive, IdleRun, WaitingRun}
              && (o.progress.None? || o.progress == Some(seen.progress))
              && now >= seen.at + prior.deadlineMs
  {
  }

  lemma AssessKeeps(s: State, c: Config, o: Observation, now: nat, eager: bool)
    requires Inv(s)
    ensures Inv(Assess(s, c, o, now, eager).state) && Grows(s, Assess(s, c, o, now, eager).state)
  {
    var prior := HealthAt(s, KeyOf(o));
    var observed := Observe(prior, o, now, DeadlineOf(c, o), c.cooldownMs, c.maxEscalations);
    if observed.Err? {
      GrowsAlready(s);
    } else {
      assert prior.Some? ==> DeadlineOk(prior.value);
      ObservePinned(prior, o, now, DeadlineOf(c, o), c.cooldownMs, c.maxEscalations);
      if eager || WorthRecording(prior, o, observed.value) {
        RecordKeeps(s, observed.value, now);
      } else {
        SettleKeeps(s, prior.value, now);
      }
    }
  }

  lemma AcceptFollows(es: seq<Escalation>, k: Key, source: Text, at: nat)
    ensures AllFollow(es, AcceptAll(es, k, source, at))
  {
  }

  lemma StoredDeadline(s: State, k: Key)
    requires Inv(s) && HealthAt(s, k).Some?
    ensures DeadlineOk(HealthAt(s, k).value)
  {
  }

  lemma ClearKeeps(s: State, h: Health, source: Text, receiptId: Text, at: nat)
    requires Inv(s) && HealthAt(s, HealthKey(h)) == Some(h) && h.clearance.None?
    ensures Inv(Clear(s, h, source, receiptId, at)) && Grows(s, Clear(s, h, source, receiptId, at))
  {
    var next := h.(clearance := Some(Clearance(source, receiptId, at)), revision := h.revision + 1);
    var es := AcceptAll(s.escalations, HealthKey(h), source, at);
    assert Clear(s, h, source, receiptId, at) == State(Put(s.health, HealthKey, next), es, s.sequence + 1);
    assert DeadlineOk(next) && HealthAt(s, HealthKey(next)) == Some(h) && Pinned(h, next) by {
      StoredDeadline(s, HealthKey(h));
    }
    assert AllFollow(s.escalations, es) by {
      AcceptFollows(s.escalations, HealthKey(h), source, at);
    }
    PutKeeps(s, next, es, s.sequence + 1);
  }

  lemma AcceptKeeps(s: State, k: Key, source: Text, receiptId: Text, at: nat)
    requires Inv(s)
    ensures Inv(Accept(s, k, source, receiptId, at)) && Grows(s, Accept(s, k, source, receiptId, at))
  {
    var h := HealthAt(s, k);
    if h.Some? && h.value.clearance.None? {
      ClearKeeps(s, h.value, source, receiptId, at);
    } else {
      GrowsAlready(s);
    }
  }

  lemma HandKeeps(s: State, k: Key, replacement: Text, at: nat)
    requires Inv(s)
    ensures Inv(HandFrom(s, k, replacement, at, 0)) && Grows(s, HandFrom(s, k, replacement, at, 0))
  {
    HandFollows(s, k, replacement, at, 0);
    var t := HandFrom(s, k, replacement, at, 0);
    FollowKeeps(s, t.escalations, t.sequence);
  }

  lemma PerformKeeps(s: State, op: Op, eager: bool)
    requires Inv(s)
    ensures Inv(Perform(s, op, eager).0) && Grows(s, Perform(s, op, eager).0)
  {
    match op {
      case Assessing(o, now, config) => AssessKeeps(s, config, o, now, eager);
      case Accepting(k, source, receiptId, at) => AcceptKeeps(s, k, source, receiptId, at);
      case Handing(k, replacement, at) =>
        GrowsAlready(s);
        HandKeeps(s, k, replacement, at);
    }
  }

  /** Calls stay within their pinned limits in every reachable state, in time order or not. */
  lemma {:induction false} RunPaced(ops: seq<Op>, eager: bool)
    ensures Inv(Run(ops, eager))
  {
    if ops != [] {
      RunPaced(ops[..|ops| - 1], eager);
      PerformKeeps(Run(ops[..|ops| - 1], eager), ops[|ops| - 1], eager);
    }
  }

  lemma LastStep(ops: seq<Op>, eager: bool)
    requires ops != []
    ensures Grows(Run(ops[..|ops| - 1], eager), Run(ops, eager))
  {
    RunPaced(ops[..|ops| - 1], eager);
    PerformKeeps(Run(ops[..|ops| - 1], eager), ops[|ops| - 1], eager);
  }

  /** The deadline, the cooldown and the limit pinned by an attempt's first observation hold for ever, whatever is
      configured later; a resolved call stays as it was resolved. */
  lemma {:induction false} PinnedForever(past: seq<Op>, more: seq<Op>, eager: bool)
    ensures Grows(Run(past, eager), Run(past + more, eager))
    decreases |more|
  {
    if more == [] {
      RunPaced(past, eager);
      GrowsAlready(Run(past, eager));
      assert past + more == past;
    } else {
      var all := past + more;
      var before := all[..|all| - 1];
      assert before == past + more[..|more| - 1];
      PinnedForever(past, more[..|more| - 1], eager);
      LastStep(all, eager);
      GrowsTwice(Run(past, eager), Run(before, eager), Run(all, eager));
    }
  }
}
