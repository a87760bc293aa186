/** A single-owner journal: validate, write, sync, publish. After an uncertain write nothing more is accepted,
    and a reopened file yields the acknowledged state, that state plus the one event in flight, or a refusal. */
module DurableJournals {
  import opened Wrappers
  import opened LineReaders
  import opened AppendQueues

  /** What a line holds: the version is fixed, the sequence numbers the line. */
  datatype Envelope<+E> = Envelope(sequence: nat, event: E)

  /** The JSON codec: one line per envelope, without a newline in it, and parsing undoes rendering. */
  datatype Codec<!E> = Codec(render: Envelope<E> -> seq<byte>, parse: seq<byte> -> Option<Envelope<E>>)

  ghost predicate Sound<E(!new)>(codec: Codec<E>) {
    forall e :: codec.parse(codec.render(e)) == Some(e) && NEWLINE !in codec.render(e)
  }

  /** The state and sequence after one line, or `None` when the line is refused. */
  function Replay<S, E>(codec: Codec<E>, reduce: (S, Envelope<E>) -> Option<S>, at: (S, nat),
          line: seq<byte>): Option<(S, nat)>
  {
    var e := codec.parse(line);
    if e.None? || e.value.sequence != at.1 + 1 then None
    else var next := reduce(at.0, e.value);
         if next.None? then None else Some((next.value, at.1 + 1))
  }

  function Step<S, E>(codec: Codec<E>, reduce: (S, Envelope<E>) -> Option<S>): ((S, nat), seq<byte>) -> Option<(S, nat)>
  {
    (at: (S, nat), line: seq<byte>) => Replay(codec, reduce, at, line)
  }

  function Line<E>(codec: Codec<E>, e: Envelope<E>): seq<byte> { codec.render(e) + [NEWLINE] }

  /** What reopening a file yields: the folded state and the number of records, or a refusal. */
  function Reopened<S, E>(codec: Codec<E>, reduce: (S, Envelope<E>) -> Option<S>, initial: S,
          content: seq<byte>): Option<(S, nat)>
  {
    ReadWhole(Step(codec, reduce), (initial, 0), content)
  }

  // ----- Crash refinement on file contents -----

  /** The sequence counts the records of the file. */
  lemma {:induction false} SequenceCounts<S, E>(codec: Codec<E>, reduce: (S, Envelope<E>) -> Option<S>, initial: S,
          records: seq<seq<byte>>)
    requires Fold(Step(codec, reduce), (initial, 0), records).Some?
    ensures Fold(Step(codec, reduce), (initial, 0), records).value.1 == |records|
  {
    if records != [] {
      FoldPrefix(Step(codec, reduce), (initial, 0), records, |records| - 1);
      SequenceCounts(codec, reduce, initial, records[..|records| - 1]);
    }
  }

  /** Part of a line behind a complete file: the same records, and something unterminated unless the cut is at
      an end. */
  lemma TornLine<E(!new)>(codec: Codec<E>, content: seq<byte>, e: Envelope<E>, cut: nat)
    requires Sound(codec) && Rest(content) == [] && cut <= |Line(codec, e)|
    ensures var file := content + Line(codec, e)[..cut];
      if cut == 0 then file == content
      else if cut < |Line(codec, e)| then Rest(file) != []
      else Rest(file) == [] && Records(file) == Records(content) + [codec.render(e)]
  {
    var text := codec.render(e);
    if cut < |Line(codec, e)| {
      assert Line(codec, e)[..cut] == text[..cut];
      SplitPlain(content, text[..cut]);
      assert content + [] == content;
    } else {
      assert Line(codec, e)[..cut] == text + [NEWLINE];
      SplitPlain(content, text);
      SplitByte(content + text, NEWLINE);
      assert content + (text + [NEWLINE]) == (content + text) + [NEWLINE];
      assert [] + text == text;
    }
  }

  /** Reopening after a crash: the acknowledged state, that state plus exactly the event in flight, or a refusal. */
  lemma ReopenedAfterCrash<S, E(!new)>(codec: Codec<E>, reduce: (S, Envelope<E>) -> Option<S>, initial: S,
                                       content: seq<byte>, e: Envelope<E>, cut: nat)
    requires Sound(codec) && cut <= |Line(codec, e)| && Reopened(codec, reduce, initial, content).Some?
    ensures var file := content + Line(codec, e)[..cut]; var before := Reopened(codec, reduce, initial, content);
      Reopened(codec, reduce, initial, file)
      == if cut == 0 then before
         else if cut < |Line(codec, e)| then None
         else Replay(codec, reduce, before.value, codec.render(e))
  {
    TornLine(codec, content, e, cut);
    var file := content + Line(codec, e)[..cut];
    if cut == |Line(codec, e)| {
      assert Records(file)[..|Records(file)| - 1] == Records(content);
    }
  }

  /** A journal opened with a record limit stays openable after an acknowledged event exactly when the event's
      line fits the limit: `append` itself never checks it. */
  lemma OpenableWithinLimit<S, E(!new)>(codec: Codec<E>, reduce: (S, Envelope<E>) -> Option<S>, initial: S,
                                        content: seq<byte>, e: Envelope<E>, limit: nat)
    requires Sound(codec) && ReadSpec(Step(codec, reduce), (initial, 0), content, limit).Some?
    requires Reopened(codec, reduce, initial, content + Line(codec, e)).Some?
    ensures ReadSpec(Step(codec, reduce), (initial, 0), content + Line(codec, e), limit).Some? <==>
              |Line(codec, e)| <= limit
  {
    assert Line(codec, e)[..|Line(codec, e)|] == Line(codec, e);
    TornLine(codec, content, e, |Line(codec, e)|);
    assert codec.render(e) in Records(content + Line(codec, e));
  }

  /** With a limit of one byte, the first acknowledged event whose rendering is not empty closes the file for good. */
  lemma LimitOfOneRefuses<S, E(!new)>(codec: Codec<E>, reduce: (S, Envelope<E>) -> Option<S>, initial: S,
          e: Envelope<E>)
    requires Sound(codec) && codec.render(e) != [] && Reopened(codec, reduce, initial, Line(codec, e)).Some?
    ensures ReadSpec(Step(codec, reduce), (initial, 0), [], 1).Some?
    ensures ReadSpec(Step(codec, reduce), (initial, 0), Line(codec, e), 1).None?
  {
    assert [] + Line(codec, e) == Line(codec, e);
    OpenableWithinLimit(codec, reduce, initial, [], e, 1);
  }

  // ----- The file -----

  class OwnedFile {
    var bytes: seq<byte>
    var synced: nat
    var held: bool

    ghost predicate Valid()
      reads this
    {
      synced <= |bytes|
    }

    constructor ()
      ensures Valid() && bytes == [] && synced == 0 && held
    {
      bytes, synced, held := [], 0, true;
    }

    /** Append; a failure may leave any part of the data behind. */
    method Write(data: seq<byte>) returns (ok: bool)
      requires Valid() && held
      modifies this`bytes
      ensures Valid() && exists cut | 0 <= cut <= |data| :: bytes == old(bytes) + data[..cut] && (ok ==> cut == |data|)
    {
      ok := *;
      var cut: int := *;
      if ok || cut < 0 || cut > |data| {
        cut := |data|;
      }
      bytes := bytes + data[..cut];
    }

    method Sync() returns (ok: bool)
      requires Valid() && held
      modifies this`synced
      ensures Valid() && synced >= old(synced) && (ok ==> synced == |bytes|)
    {
      ok := *;
      if ok {
        synced := |bytes|;
      }
    }

    /** Give the file up; whoever holds it next may write to it. */
    method Release()
      modifies this`held
      ensures !held
    {
      held := false;
    }

    /** Power loss: bytes that were never synced may be gone. The next owner finds the file free. */
    method Crash()
      requires Valid()
      modifies this
      ensures Valid() && exists kept | old(synced) <= kept <= old(|bytes|) :: bytes == old(bytes)[..kept]
      ensures synced == |bytes| && held
    {
      var kept: int := *;
      if kept < synced || kept > |bytes| {
        kept := |bytes|;
      }
      bytes := bytes[..kept];
      synced, held := |bytes|, true;
    }
  }

  datatype Appended<+S> = Published(state: S) | Refused | Uncertain

  /** What may happen while an append waits: another append or a close is asked for, or the release gets a turn. */
  datatype Arrival<!S, !E> = Asked(make: (S, nat) -> Option<E>) | CloseAsked | ReleaseTurn

  class DurableJournal<S(!new), E(!new)> {
    const codec: Codec<E>
    const reduce: (S, Envelope<E>) -> Option<S>
    const initial: S
    const file: OwnedFile
    var state: S
    var sequence: nat
    var uncertain: bool
    var chain: Chain
    var makes: seq<(S, nat) -> Option<E>>
    ghost var steps: seq<Turn>
    ghost var committed: seq<byte>
    ghost var inFlight: Option<Envelope<E>>

    /** The state is the fold of the acknowledged records, which are on disk; behind them the file holds nothing,
        or after an uncertain write some part of one more acceptable line. */
    ghost predicate Durable()
      reads this, file
    {
      && Sound(codec) && file.Valid()
      && Reopened(codec, reduce, initial, committed) == Some((state, sequence))
      && |committed| <= file.synced
      && (!uncertain ==> inFlight.None? && file.bytes == committed)
      && (uncertain ==> inFlight.Some? && InFlight(inFlight.value, file.bytes))
    }

    ghost predicate InFlight(e: Envelope<E>, bytes: seq<byte>)
      reads this
    {
      && e.sequence == sequence + 1 && reduce(state, e).Some?
      && exists cut | 0 <= cut <= |Line(codec, e)| :: bytes == committed + Line(codec, e)[..cut]
    }

    /** Appends wait in one chain of promises, and the file is held until the chain releases it. */
    ghost predicate Ordered()
      reads this, file
    {
      && AppendQueues.Run(steps) == Some(chain) && AppendQueues.Inv(chain) && |makes| == |chain.appends|
      && (file.held <==> !chain.released)
    }

    /** Between two turns of the event loop no append is half way. */
    ghost predicate Valid()
      reads this, file
    {
      Durable() && Ordered() && forall i :: 0 <= i < |chain.appends| ==> chain.appends[i].status != Running
    }

    constructor Adopt(codec: Codec<E>, reduce: (S, Envelope<E>) -> Option<S>, initial: S, file: OwnedFile,
                      state: S, sequence: nat)
      requires Sound(codec) && file.Valid() && file.held && file.synced == |file.bytes|
      requires Reopened(codec, reduce, initial, file.bytes) == Some((state, sequence))
      ensures Valid() && !uncertain && chain == AppendQueues.EMPTY && committed == file.bytes
      ensures this.codec == codec && this.reduce == reduce && this.initial == initial && this.file == file
      ensures this.state == state && this.sequence == sequence
    {
      this.codec, this.reduce, this.initial, this.file := codec, reduce, initial, file;
      this.state, this.sequence := state, sequence;
      this.uncertain, this.chain, this.makes, this.steps := false, AppendQueues.EMPTY, [], [];
      this.committed, this.inFlight := file.bytes, None;
    }

    // ----- Turns of the chain -----

    method TakeTurn(turn: Turn)
      requires Ordered() && AppendQueues.Next(chain, turn).Some? && !turn.Submit? && !turn.Release?
      modifies this`chain, this`steps
      ensures Ordered() && chain == AppendQueues.Next(old(chain), turn).value
    {
      TurnTaken(steps, chain, turn);
      chain, steps := AppendQueues.Next(chain, turn).value, steps + [turn];
    }

    /** Accept an append: it waits behind every append accepted before it. A closing journal accepts nothing. */
    method Append(make: (S, nat) -> Option<E>) returns (promise: Option<nat>)
      requires Ordered()
      modifies this`chain, this`makes, this`steps
      ensures Ordered() && (promise.None? <==> old(chain).closing.Some?)
      ensures promise.None? ==> chain == old(chain) && makes == old(makes)
      ensures promise.Some? ==>
                && promise.value == |old(chain).appends| && makes == old(makes) + [make]
                && AppendQueues.Next(old(chain), Submit) == Some(chain)
    {
      if chain.closing.Some? {
        return None;
      }
      promise := Some(|chain.appends|);
      TurnTaken(steps, chain, Submit);
      chain, steps, makes := AppendQueues.Next(chain, Submit).value, steps + [Submit], makes + [make];
    }

    /** From the first close on nothing is accepted; later closes wait on the same promise. */
    method Close()
      requires Ordered()
      modifies this`chain, this`steps
      ensures Ordered() && chain.closing.Some? && AppendQueues.Next(old(chain), Turn.Close) == Some(chain)
    {
      TakeTurn(Turn.Close);
    }

    /** The release behind a close: it gives the file up exactly once the promise it waits on has settled. */
    method TryRelease() returns (released: bool)
      requires Ordered()
      modifies this`chain, this`steps, file`held
      ensures Ordered() && released == AppendQueues.Next(old(chain), Release).Some?
      ensures chain == if released then AppendQueues.Next(old(chain), Release).value else old(chain)
      ensures !released ==> file.held == old(file.held)
    {
      released := AppendQueues.Next(chain, Release).Some?;
      if released {
        TurnTaken(steps, chain, Release);
        chain, steps := AppendQueues.Next(chain, Release).value, steps + [Release];
        file.Release();
      }
    }

    /** While append `k` runs, others may ask for appends and for a close, but the file stays held. */
    method Arrive(k: nat, arrivals: seq<Arrival<S, E>>)
      requires Ordered() && k < |chain.appends| && chain.appends[k].status == Running
      modifies this`chain, this`makes, this`steps, file`held
      ensures Ordered() && file.held && Grown(old(chain), chain) && old(makes) <= makes
      ensures arrivals == [] ==> chain == old(chain)
    {
      RunningHolds(chain, k, Release);
      for i := 0 to |arrivals|
        invariant Ordered() && file.held && Grown(old(chain), chain) && old(makes) <= makes
        invariant arrivals == [] ==> chain == old(chain)
      {
        RunningHolds(chain, k, Release);
        match arrivals[i] {
          case Asked(make) => var promise := Append(make);
          case CloseAsked => Close();
          case ReleaseTurn => var released := TryRelease();
        }
      }
    }

    // ----- One append -----

    /** Run append `k` once the one it waits on has settled: validation precedes the write, a synced event precedes
        the new state, and a failed write poisons the journal. */
    method Perform(k: nat, before: seq<Arrival<S, E>>, during: seq<Arrival<S, E>>) returns (r: Appended<S>)
      requires Valid() && AppendQueues.Next(chain, Start(k)).Some?
      modifies this, file
      ensures Valid() && file.held && old(makes) <= makes
      ensures Grown(WithStatus(old(chain), k, Settled), chain)
      ensures before == during == [] ==> chain == WithStatus(old(chain), k, Settled)
      ensures old(uncertain) ==> r == Refused
      ensures r.Refused? ==>
                && state == old(state) && sequence == old(sequence) && uncertain == old(uncertain)
                && committed == old(committed) && inFlight == old(inFlight)
                && file.bytes == old(file.bytes) && file.synced == old(file.synced)
      ensures r.Published? ==>
                !uncertain && r.state == state && Extends(old(state), old(sequence), old(committed), old(makes)[k])
      ensures r.Uncertain? ==>
                uncertain && state == old(state) && sequence == old(sequence) && committed == old(committed)
    {
      Begin(k, before);
      r := Commit(k, makes[k], during);
      Finish(k);
    }

    method Begin(k: nat, arrivals: seq<Arrival<S, E>>)
      requires Valid() && AppendQueues.Next(chain, Start(k)).Some?
      modifies this`chain, this`makes, this`steps, file`held
      ensures Durable() && Ordered() && file.held && Grown(WithStatus(old(chain), k, Running), chain)
              && old(makes) <= makes
      ensures arrivals == [] ==> chain == WithStatus(old(chain), k, Running)
    {
      TakeTurn(Start(k));
      Arrive(k, arrivals);
    }

    method Finish(k: nat)
      requires Durable() && Ordered() && file.held && k < |chain.appends| && chain.appends[k].status == Running
      modifies this`chain, this`steps
      ensures Valid() && file.held && chain == WithStatus(old(chain), k, Settled)
    {
      OnlyOneRuns(chain, k);
      TakeTurn(Settle(k));
    }

    /** The journal is one acceptable event further. */
    ghost predicate Extends(before: S, count: nat, acknowledged: seq<byte>, make: (S, nat) -> Option<E>)
      reads this
    {
      && sequence == count + 1 && make(before, sequence).Some?
      && reduce(before, Envelope(sequence, make(before, sequence).value)) == Some(state)
      && committed == acknowledged + Line(codec, Envelope(sequence, make(before, sequence).value))
    }

    /** What append `k` does while it runs; `during` arrives between its write and its sync. */
    method Commit(k: nat, make: (S, nat) -> Option<E>, during: seq<Arrival<S, E>>) returns (r: Appended<S>)
      requires Durable() && Ordered() && k < |chain.appends| && chain.appends[k].status == Running
      modifies this, file
      ensures Durable() && Ordered() && file.held && Grown(old(chain), chain) && old(makes) <= makes
      ensures during == [] ==> chain == old(chain)
      ensures old(uncertain) ==> r == Refused
      ensures r.Refused? ==>
                && state == old(state) && sequence == old(sequence) && uncertain == old(uncertain)
                && committed == old(committed) && inFlight == old(inFlight)
                && file.bytes == old(file.bytes) && file.synced == old(file.synced)
      ensures r.Published? ==>
                !uncertain && r.state == state && Extends(old(state), old(sequence), old(committed), make)
      ensures r.Uncertain? ==>
                uncertain && state == old(state) && sequence == old(sequence) && committed == old(committed)
    {
      RunningHolds(chain, k, Release);
      var event := if uncertain then None else make(state, sequence + 1);
      if event.None? {
        return Refused;
      }
      var e := Envelope(sequence + 1, event.value);
      var next := reduce(state, e);
      if next.None? {
        return Refused;
      }
      var ok := WriteLine(k, e, during);
      if !ok {
        uncertain, inFlight := true, Some(e);
        return Uncertain;
      }
      committed := committed + Line(codec, e);
      state := next.value;
      sequence := sequence + 1;
      r := Published(state);
    }

    /** Write and sync one line; a failure may leave any part of it. */
    method WriteLine(k: nat, e: Envelope<E>, during: seq<Arrival<S, E>>) returns (ok: bool)
      requires Durable() && !uncertain && Ordered() && k < |chain.appends| && chain.appends[k].status == Running
      requires e.sequence == sequence + 1 && reduce(state, e).Some?
      modifies this`chain, this`makes, this`steps, file
      ensures file.Valid() && Ordered() && file.held && Grown(old(chain), chain) && old(makes) <= makes
      ensures during == [] ==> chain == old(chain)
      ensures |committed| <= file.synced && InFlight(e, file.bytes)
      ensures ok ==> file.bytes == committed + Line(codec, e) && file.synced == |file.bytes|
      ensures Reopened(codec, reduce, initial, committed + Line(codec, e)) == Some((reduce(state, e).value, e.sequence))
    {
      var line := Line(codec, e);
      ReopenedAfterCrash(codec, reduce, initial, committed, e, |line|);
      assert line[..|line|] == line;
      RunningHolds(chain, k, Release);
      ok := file.Write(line);
      Arrive(k, during);
      if ok {
        ok := file.Sync();
      }
    }

    /** Let the event loop run until every accepted append has settled. */
    method Drain()
      requires Valid()
      modifies this, file
      ensures Valid() && AllSettled(chain)
      ensures |chain.appends| == |old(chain).appends| && chain.closing == old(chain).closing
    {
      for k := 0 to |chain.appends|
        invariant Valid() && |chain.appends| == |old(chain).appends| && chain.closing == old(chain).closing
        invariant forall i :: 0 <= i < k ==> chain.appends[i].status == Settled
      {
        if chain.appends[k].status != Settled {
          FirstCanStart(chain, k);
          var r := Perform(k, [], []);
        }
      }
    }

    /** Closing always ends with the file given up, behind every accepted append. */
    method CloseAndRelease()
      requires Valid()
      modifies this, file
      ensures Valid() && !file.held && chain.released && AllSettled(chain)
    {
      Close();
      Drain();
      var released := TryRelease();
    }
  }

  /** What arrivals may do to a chain: add waiting appends, and close it. */
  ghost predicate Grown(before: Chain, after: Chain) {
    && before.appends <= after.appends && before.released == after.released
    && forall i :: |before.appends| <= i < |after.appends| ==> after.appends[i].status == Waiting
  }

  lemma TurnTaken(steps: seq<Turn>, c: Chain, turn: Turn)
    requires AppendQueues.Run(steps) == Some(c) && AppendQueues.Inv(c) && AppendQueues.Next(c, turn).Some?
    ensures AppendQueues.Run(steps + [turn]) == AppendQueues.Next(c, turn)
    ensures AppendQueues.Inv(AppendQueues.Next(c, turn).value)
  {
    assert (steps + [turn])[..|steps|] == steps;
    AppendQueues.NextKeeps(c, turn);
  }

  /** Open an owned file with either reader. */
  method Open<S(!new), E(!new)>(codec: Codec<E>, reduce: (S, Envelope<E>) -> Option<S>, initial: S, file: OwnedFile,
                                limit: Option<nat>) returns (j: Option<DurableJournal<S, E>>)
    requires Sound(codec) && file.Valid() && file.held && file.synced == |file.bytes|
    requires limit.Some? ==> limit.value >= 1
    ensures j.Some? <==> Reopened(codec, reduce, initial, file.bytes).Some?
                         && (limit.Some? ==> Fits(Records(file.bytes), limit.value))
    ensures j.Some? ==> fresh(j.value) && j.value.Valid() && j.value.file == file && !j.value.uncertain
                        && Reopened(codec, reduce, initial, file.bytes) == Some((j.value.state, j.value.sequence))
  {
    var read: Option<(S, nat)>;
    if limit.None? {
      read := ReadWhole(Step(codec, reduce), (initial, 0), file.bytes);
    } else {
      read := ReadBounded(Step(codec, reduce), (initial, 0), file.bytes, limit.value);
    }
    if read.None? {
      return None;
    }
    var adopted := new DurableJournal.Adopt(codec, reduce, initial, file, read.value.0, read.value.1);
    j := Some(adopted);
  }

  /** A crash and a reopening: every acknowledged append survives, at most the one uncertain event is added, and
      only an uncertain write can leave a file that is refused. */
  method CrashAndReopen<S(!new), E(!new)>(journal: DurableJournal<S, E>) returns (next: Option<DurableJournal<S, E>>)
    requires journal.Valid()
    modifies journal.file
    ensures next.None? ==> journal.uncertain
    ensures next.Some? ==>
              next.value.Valid() && !next.value.uncertain
              && (|| (next.value.state == journal.state && next.value.sequence == journal.sequence)
                  || (journal.uncertain && next.value.sequence == journal.sequence + 1
                      && journal.reduce(journal.state, journal.inFlight.value) == Some(next.value.state)))
  {
    ghost var before := journal.file.bytes;
    journal.file.Crash();
    ghost var kept :| |journal.committed| <= kept <= |before| && journal.file.bytes == before[..kept];
    if journal.uncertain {
      ghost var e := journal.inFlight.value;
      ghost var cut :| 0 <= cut <= |Line(journal.codec, e)|
                       && before == journal.committed + Line(journal.codec, e)[..cut];
      ghost var left := kept - |journal.committed|;
      assert journal.file.bytes == journal.committed + Line(journal.codec, e)[..left];
      ReopenedAfterCrash(journal.codec, journal.reduce, journal.initial, journal.committed, e, left);
    } else {
      assert journal.file.bytes == journal.committed;
    }
    next := Open(journal.codec, journal.reduce, journal.initial, journal.file, None);
  }
}
