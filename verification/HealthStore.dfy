/** The health store as it runs: it assesses, and appends one record for each thing that changed. */
module HealthStores {
  import opened Wrappers
  import opened Identities
  import opened Keyed
  import opened HealthModel
  import opened HealthRuns
  import opened HealthLimits

  lemma IdAt(s: State, i: nat)
    requires IdsClimb(s) && i < |s.escalations|
    ensures Find(s.escalations, EscalationId, s.escalations[i].id) == i
  {
  }

  /** The journal accepts the resolution of every escalation that a recovery answers. */
  lemma AnswerAccepted(s: State, h: Health, i: nat, now: nat)
    requires IdsClimb(s) && i < |s.escalations| && HealthAt(s, HealthKey(h)) == Some(h) && Answers(h, s.escalations[i])
    ensures Reduce(s, Resolved(s.escalations[i].id, now))
         == Ok(State(s.health, s.escalations[i := Closed(s.escalations[i], ConditionCleared(now))], s.sequence + 1))
  {
    IdAt(s, i);
  }

  /** The journal accepts every call that is due. */
  lemma CallAccepted(s: State, h: Health, now: nat)
    requires HealthAt(s, HealthKey(h)) == Some(h) && Due(s, h, now)
    ensures Reduce(s, Escalated(HealthKey(h), h.classification, now, now + h.cooldownMs))
         == Ok(State(s.health, s.escalations + [Raised(h, s.sequence + 1, now + h.cooldownMs)], s.sequence + 1))
  {
  }

  lemma HandoverAccepted(s: State, k: Key, replacement: Text, at: nat, i: nat)
    requires IdsClimb(s) && i < |s.escalations| && OpenFor(s.escalations[i], k, Stale) && replacement != k.0
    ensures Reduce(s, HandedOff(s.escalations[i].id, replacement, at))
         == Ok(State(s.health, s.escalations[i := Closed(s.escalations[i], HandoffReplaced(replacement, at))],
                     s.sequence + 1))
  {
    IdAt(s, i);
  }

  class HealthStore {
    var state: State
    var config: Config

    ghost predicate Valid()
      reads this
    {
      Inv(state)
    }

    constructor (config: Config)
      ensures Valid() && state == EMPTY && this.config == config
    {
      state, this.config := EMPTY, config;
    }

    /** Later limits apply only to attempts that were never observed. */
    method Configure(config: Config)
      modifies this`config
      ensures this.config == config
    {
      this.config := config;
    }

    method Append(e: Event) returns (r: Result<State, Error>)
      modifies this`state
      ensures r == Reduce(old(state), e) && state == if r.Ok? then r.value else old(state)
    {
      r := Reduce(state, e);
      if r.Ok? {
        state := r.value;
      }
    }

    /** Assess one observation, recording it only when it changes what is on record. */
    method Assess(o: Observation, now: nat) returns (r: Result<Health, Error>, raised: Option<Escalation>)
      requires Valid()
      modifies this`state
      ensures Valid() && Grows(old(state), state)
      ensures Assessment(state, r, raised) == HealthModel.Assess(old(state), config, o, now, false)
    {
      AssessKeeps(state, config, o, now, false);
      r, raised := Decide(o, now);
    }

    method Decide(o: Observation, now: nat) returns (r: Result<Health, Error>, raised: Option<Escalation>)
      requires IdsClimb(state)
      modifies this`state
      ensures Assessment(state, r, raised) == HealthModel.Assess(old(state), config, o, now, false)
    {
      var prior := HealthAt(state, KeyOf(o));
      var candidate := Observe(prior, o, now, DeadlineOf(config, o), config.cooldownMs, config.maxEscalations);
      if candidate.Err? {
        return Err(candidate.error), None;
      }
      var h := candidate.value;
      if WorthRecording(prior, o, h) {
        HealthAtPut(state, h, state.escalations, state.sequence + 1, HealthKey(h));
        PutIds(state, h);
        var appended := Append(Observed(o, now, h.deadlineMs, h.cooldownMs, h.maxEscalations));
      } else {
        h := prior.value;
      }
      ResolveAnswered(h, now);
      r, raised := Call(h, now);
    }

    method ResolveAnswered(h: Health, now: nat)
      requires IdsClimb(state) && HealthAt(state, HealthKey(h)) == Some(h)
      modifies this`state
      ensures state == ResolveFrom(old(state), h, now, 0)
      ensures HealthAt(state, HealthKey(h)) == Some(h)
    {
      ghost var before := state;
      for i := 0 to |state.escalations|
        invariant IdsClimb(state) && state.health == before.health && |state.escalations| == |before.escalations|
        invariant ResolveFrom(state, h, now, i) == ResolveFrom(before, h, now, 0)
      {
        if Answers(h, state.escalations[i]) {
          AnswerAccepted(state, h, i, now);
          var resolved := Append(Resolved(state.escalations[i].id, now));
        }
      }
    }

    method Call(h: Health, now: nat) returns (r: Result<Health, Error>, raised: Option<Escalation>)
      requires HealthAt(state, HealthKey(h)) == Some(h)
      modifies this`state
      ensures Assessment(state, r, raised) == Escalate(old(state), h, now)
    {
      if !Due(state, h, now) {
        return Ok(h), None;
      }
      if !SafeSum(now, h.cooldownMs) {
        return Err(CooldownOverflow), None;
      }
      CallAccepted(state, h, now);
      var appended := Append(Escalated(HealthKey(h), h.classification, now, now + h.cooldownMs));
      return Ok(h), Some(state.escalations[|state.escalations| - 1]);
    }

    /** Only a durable terminal receipt clears an incident without evidence of recovery. */
    method ClearAcceptedAttempt(k: Key, source: Text, receiptId: Text, at: nat)
      requires Valid()
      modifies this`state
      ensures Valid() && Grows(old(state), state) && state == Accept(old(state), k, source, receiptId, at)
    {
      AcceptKeeps(state, k, source, receiptId, at);
      RecordClearance(k, source, receiptId, at);
    }

    method RecordClearance(k: Key, source: Text, receiptId: Text, at: nat)
      modifies this`state
      ensures state == Accept(old(state), k, source, receiptId, at)
    {
      var h := HealthAt(state, k);
      if h.None? || h.value.clearance.Some? {
        return;
      }
      var appended := Append(Cleared(k, source, receiptId, at));
    }

    /** A fenced replacement resolves only the retired generation's open stale calls. */
    method ClearHandoffAttempt(k: Key, replacement: Text, at: nat) returns (refused: bool)
      requires Valid()
      modifies this`state
      ensures Valid() && Grows(old(state), state)
      ensures (state, if refused then Refused(NotHandedOff) else Done)
           == Perform(old(state), Handing(k, replacement, at), false)
    {
      if replacement == k.0 && Active(state, k, Stale) {
        GrowsAlready(state);
        return true;
      }
      HandKeeps(state, k, replacement, at);
      HandOver(k, replacement, at);
      refused := false;
    }

    method HandOver(k: Key, replacement: Text, at: nat)
      requires IdsClimb(state) && (replacement == k.0 ==> !Active(state, k, Stale))
      modifies this`state
      ensures state == HandFrom(old(state), k, replacement, at, 0)
    {
      ghost var before := state;
      for i := 0 to |state.escalations|
        invariant IdsClimb(state) && |state.escalations| == |before.escalations|
        invariant HandFrom(state, k, replacement, at, i) == HandFrom(before, k, replacement, at, 0)
        invariant replacement == k.0 ==> !Active(state, k, Stale)
      {
        if OpenFor(state.escalations[i], k, Stale) {
          HandoverAccepted(state, k, replacement, at, i);
          var handed := Append(HandedOff(state.escalations[i].id, replacement, at));
        }
      }
    }
  }

  lemma PutIds(s: State, h: Health)
    requires IdsClimb(s)
    ensures IdsClimb(State(Put(s.health, HealthKey, h), s.escalations, s.sequence + 1))
  {
  }
}
