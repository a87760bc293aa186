/** Newline-separated records: the definition by splitting the whole file, and the bounded reader that
    never holds more than one record and must agree with it. */
module LineReaders {
  import opened Wrappers

  newtype byte = x: int | 0 <= x < 256

  const NEWLINE: byte := 0x0a

  // ----- Splitting the whole file -----

  /** `contents.split('\n')`: always at least one piece, the last one unterminated. */
  function Split(content: seq<byte>): (pieces: seq<seq<byte>>)
    ensures pieces != []
  {
    if content == [] then [[]]
    else var n := |content| - 1; var before := Split(content[..n]);
         if content[n] == NEWLINE then before + [[]]
         else before[..|before| - 1] + [before[|before| - 1] + [content[n]]]
  }

  /** The terminated records, and what follows the last newline. */
  function Records(content: seq<byte>): seq<seq<byte>> { Split(content)[..|Split(content)| - 1] }

  function Rest(content: seq<byte>): seq<byte> { Split(content)[|Split(content)| - 1] }

  lemma SplitByte(content: seq<byte>, c: byte)
    ensures c == NEWLINE ==> Records(content + [c]) == Records(content) + [Rest(content)] && Rest(content + [c]) == []
    ensures c != NEWLINE ==> Records(content + [c]) == Records(content) && Rest(content + [c]) == Rest(content) + [c]
  {
    assert (content + [c])[..|content|] == content;
  }

  /** Bytes without a newline only lengthen the unterminated rest. */
  lemma {:induction false} SplitPlain(content: seq<byte>, tail: seq<byte>)
    requires NEWLINE !in tail
    ensures Records(content + tail) == Records(content) && Rest(content + tail) == Rest(content) + tail
  {
    if tail == [] {
      assert content + tail == content;
    } else {
      var n := |tail| - 1;
      SplitPlain(content, tail[..n]);
      SplitByte(content + tail[..n], tail[n]);
      assert content + tail == (content + tail[..n]) + [tail[n]];
    }
  }

  /** A longer file has the same records first, and continues the piece that was unterminated. */
  lemma {:induction false} SplitExtends(content: seq<byte>, tail: seq<byte>)
    ensures Records(content) <= Records(content + tail)
    ensures var n := |Records(content)|; Rest(content) <= Split(content + tail)[n]
  {
    if tail == [] {
      assert content + tail == content;
    } else {
      var n := |tail| - 1;
      SplitExtends(content, tail[..n]);
      SplitByte(content + tail[..n], tail[n]);
      assert content + tail == (content + tail[..n]) + [tail[n]];
    }
  }

  /** The file is empty or ends with a newline exactly when nothing is left unterminated. */
  lemma CompleteFile(content: seq<byte>)
    ensures Rest(content) == [] <==> content == [] || content[|content| - 1] == NEWLINE
  {
    if content != [] {
      var n := |content| - 1;
      SplitByte(content[..n], content[n]);
      assert content[..n] + [content[n]] == content;
    }
  }

  // ----- Replaying records -----

  function Fold<S>(step: (S, seq<byte>) -> Option<S>, initial: S, records: seq<seq<byte>>): Option<S> {
    if records == [] then Some(initial)
    else match Fold(step, initial, records[..|records| - 1])
         case None => None
         case Some(s) => step(s, records[|records| - 1])
  }

  lemma {:induction false} FoldPrefix<S>(step: (S, seq<byte>) -> Option<S>, initial: S, records: seq<seq<byte>>, n: nat)
    requires n <= |records| && Fold(step, initial, records).Some?
    ensures Fold(step, initial, records[..n]).Some?
    decreases |records|
  {
    if n < |records| {
      FoldPrefix(step, initial, records[..|records| - 1], n);
      assert records[..|records| - 1][..n] == records[..n];
    } else {
      assert records[..n] == records;
    }
  }

  predicate Fits(records: seq<seq<byte>>, limit: nat) {
    forall r :: r in records ==> |r| + 1 <= limit
  }

  /** What any correct bounded reader must answer. */
  function ReadSpec<S>(step: (S, seq<byte>) -> Option<S>, initial: S, content: seq<byte>, limit: nat): Option<S> {
    if Rest(content) == [] && Fits(Records(content), limit) then Fold(step, initial, Records(content)) else None
  }

  /** The reader that holds the whole file, as kept for journals without a record limit. */
  function ReadWhole<S>(step: (S, seq<byte>) -> Option<S>, initial: S, content: seq<byte>): Option<S> {
    if Rest(content) == [] then Fold(step, initial, Records(content)) else None
  }

  /** A prefix whose rest is already too long, or whose records already fail, decides the whole file. */
  lemma PrefixDecides<S>(step: (S, seq<byte>) -> Option<S>, initial: S, content: seq<byte>, n: nat, limit: nat)
    requires n <= |content|
    requires |Rest(content[..n])| + 1 > limit >= 1 || Fold(step, initial, Records(content[..n])).None?
             || !Fits(Records(content[..n]), limit)
    ensures ReadSpec(step, initial, content, limit).None?
  {
    assert content[..n] + content[n..] == content;
    SplitExtends(content[..n], content[n..]);
    var k := |Records(content[..n])|;
    assert Records(content)[..k] == Records(content[..n]);
    if Fold(step, initial, Records(content)).Some? {
      FoldPrefix(step, initial, Records(content), k);
    }
    assert k < |Records(content)| ==> Split(content)[k] in Records(content);
    assert forall r :: r in Records(content[..n]) ==> r in Records(content);
  }

  // ----- The bounded reader -----

  function Joined(parts: seq<seq<byte>>): seq<byte> {
    if parts == [] then [] else Joined(parts[..|parts| - 1]) + parts[|parts| - 1]
  }

  function Min(a: nat, b: nat): nat { if a < b then a else b }

  /** Positional read: some bytes of what is left, as many as fit, or none at the end. Short reads happen. */
  method ReadAt(content: seq<byte>, buffer: array<byte>, offset: nat) returns (count: nat)
    requires offset <= |content| && buffer.Length > 0
    modifies buffer
    ensures count <= buffer.Length && count <= |content| - offset
    ensures count == 0 <==> offset == |content|
    ensures buffer[..count] == content[offset..offset + count]
  {
    var most := Min(buffer.Length, |content| - offset);
    var served: int := *;
    count := if 0 < served < most then served else most;
    for i := 0 to count
      invariant buffer[..i] == content[offset..offset + i]
    {
      buffer[i] := content[offset + i];
    }
  }

  /** How far the reader has come: `parts` hold the unterminated rest of the first `consumed` bytes. */
  ghost predicate Reached<S>(step: (S, seq<byte>) -> Option<S>, initial: S, content: seq<byte>, limit: nat,
                             consumed: nat, parts: seq<seq<byte>>, bytes: nat, state: S)
    requires consumed <= |content|
  {
    && Joined(parts) == Rest(content[..consumed]) && bytes == |Joined(parts)| && bytes + 1 <= limit
    && Fold(step, initial, Records(content[..consumed])) == Some(state)
    && Fits(Records(content[..consumed]), limit)
  }

  /** Up to and including a newline, the content is one more whole record. */
  lemma OneMoreRecord(content: seq<byte>, consumed: nat, index: nat)
    requires consumed <= index < |content| && content[index] == NEWLINE && NEWLINE !in content[consumed..index]
    ensures Records(content[..index + 1])
         == Records(content[..consumed]) + [Rest(content[..consumed]) + content[consumed..index]]
    ensures Rest(content[..index + 1]) == []
    ensures Records(content[..index]) == Records(content[..consumed])
    ensures Rest(content[..index]) == Rest(content[..consumed]) + content[consumed..index]
  {
    assert content[..index] == content[..consumed] + content[consumed..index];
    SplitPlain(content[..consumed], content[consumed..index]);
    assert content[..index + 1] == content[..index] + [content[index]];
    SplitByte(content[..index], content[index]);
  }

  lemma OneMoreFold<S>(step: (S, seq<byte>) -> Option<S>, initial: S, records: seq<seq<byte>>, line: seq<byte>,
                       limit: nat, state: S)
    requires Fold(step, initial, records) == Some(state) && Fits(records, limit)
    ensures Fold(step, initial, records + [line]) == step(state, line)
    ensures Fits(records + [line], limit) <==> |line| + 1 <= limit
  {
    var more := records + [line];
    assert more[..|more| - 1] == records && more[|more| - 1] == line;
  }

  /** A newline after `segment` ends one record; the reader replays it and starts afresh behind it. */
  lemma RecordEnds<S>(step: (S, seq<byte>) -> Option<S>, initial: S, content: seq<byte>, limit: nat,
                      consumed: nat, index: nat, parts: seq<seq<byte>>, bytes: nat, state: S)
    requires consumed <= index < |content| && limit >= 1 && content[index] == NEWLINE
    requires NEWLINE !in content[consumed..index]
    requires Reached(step, initial, content, limit, consumed, parts, bytes, state)
    ensures var line := Joined(parts) + content[consumed..index];
      && |line| == bytes + (index - consumed)
      && (|line| + 1 > limit || step(state, line).None? ==> ReadSpec(step, initial, content, limit).None?)
      && (|line| + 1 <= limit && step(state, line).Some? ==>
            Reached(step, initial, content, limit, index + 1, [], 0, step(state, line).value))
  {
    var line := Joined(parts) + content[consumed..index];
    OneMoreRecord(content, consumed, index);
    OneMoreFold(step, initial, Records(content[..consumed]), line, limit, state);
    if |line| + 1 > limit {
      PrefixDecides(step, initial, content, index, limit);
    } else if step(state, line).None? {
      PrefixDecides(step, initial, content, index + 1, limit);
    }
  }

  /** The tail of a chunk without a newline is kept for the next one, unless it is already too long. */
  lemma TailKept<S>(step: (S, seq<byte>) -> Option<S>, initial: S, content: seq<byte>, limit: nat,
                    consumed: nat, end: nat, parts: seq<seq<byte>>, bytes: nat, state: S)
    requires consumed <= end <= |content| && limit >= 1 && NEWLINE !in content[consumed..end]
    requires Reached(step, initial, content, limit, consumed, parts, bytes, state)
    ensures bytes + (end - consumed) + 1 > limit ==> ReadSpec(step, initial, content, limit).None?
    ensures bytes + (end - consumed) + 1 <= limit ==>
              Reached(step, initial, content, limit, end, parts + [content[consumed..end]], bytes + (end - consumed),
                      state)
  {
    var tail := content[consumed..end];
    assert content[..end] == content[..consumed] + tail;
    SplitPlain(content[..consumed], tail);
    assert (parts + [tail])[..|parts|] == parts;
    if bytes + (end - consumed) + 1 > limit {
      PrefixDecides(step, initial, content, end, limit);
    }
  }

  lemma Slices(chunk: seq<byte>, content: seq<byte>, offset: nat, start: nat, index: nat)
    requires offset + |chunk| <= |content| && chunk == content[offset..offset + |chunk|] && start <= index <= |chunk|
    ensures chunk[start..index] == content[offset + start..offset + index]
    ensures index < |chunk| ==> chunk[index] == content[offset + index]
  {
    var left, right := chunk[start..index], content[offset + start..offset + index];
    forall i | 0 <= i < |left| ensures left[i] == right[i] {
      assert chunk[start + i] == content[offset + start + i];
    }
  }

  /** Half way through a buffer: the bytes from `start` up to `index` have no newline, and everything before them has
      been replayed or kept. */
  ghost predicate Scanned<S>(step: (S, seq<byte>) -> Option<S>, initial: S, content: seq<byte>, limit: nat,
                             chunk: seq<byte>, offset: nat, start: nat, index: nat,
                             parts: seq<seq<byte>>, bytes: nat, state: S)
    requires offset + |chunk| <= |content| && index <= |chunk|
  {
    && start <= index && NEWLINE !in chunk[start..index]
    && Reached(step, initial, content, limit, offset + start, parts, bytes, state)
  }

  /** The bounded check, the joining of kept parts, and the replay of the record that ends at `index`. */
  method EndRecord<S>(step: (S, seq<byte>) -> Option<S>, ghost initial: S, ghost content: seq<byte>, limit: nat,
                      chunk: seq<byte>, ghost offset: nat, start: nat, index: nat,
                      parts: seq<seq<byte>>, bytes: nat, state: S)
      returns (next: Option<S>)
    requires limit >= 1 && offset + |chunk| <= |content| && chunk == content[offset..offset + |chunk|]
    requires start <= index < |chunk| && chunk[index] == NEWLINE
    requires Scanned(step, initial, content, limit, chunk, offset, start, index, parts, bytes, state)
    ensures next.Some? ==>
              Scanned(step, initial, content, limit, chunk, offset, index + 1, index + 1, [], 0, next.value)
    ensures next.None? ==> ReadSpec(step, initial, content, limit).None?
  {
    var segment := chunk[start..index];
    Slices(chunk, content, offset, start, index);
    RecordEnds(step, initial, content, limit, offset + start, offset + index, parts, bytes, state);
    if bytes + |segment| + 1 > limit {
      return None;
    }
    assert Joined([]) + segment == segment;
    next := step(state, if parts != [] then Joined(parts) + segment else segment);
  }

  /** Keep the tail of a chunk for the next one, unless it is already too long. */
  method KeepTail<S>(step: (S, seq<byte>) -> Option<S>, ghost initial: S, ghost content: seq<byte>, limit: nat,
                     chunk: seq<byte>, ghost offset: nat, start: nat,
                     parts: seq<seq<byte>>, bytes: nat, ghost state: S)
      returns (ok: bool, kept: seq<seq<byte>>, held: nat)
    requires limit >= 1 && offset + |chunk| <= |content| && chunk == content[offset..offset + |chunk|]
    requires Scanned(step, initial, content, limit, chunk, offset, start, |chunk|, parts, bytes, state)
    ensures ok ==> Reached(step, initial, content, limit, offset + |chunk|, kept, held, state)
    ensures !ok ==> ReadSpec(step, initial, content, limit).None?
  {
    var tail := chunk[start..|chunk|];
    Slices(chunk, content, offset, start, |chunk|);
    TailKept(step, initial, content, limit, offset + start, offset + |chunk|, parts, bytes, state);
    ok, kept, held := bytes + |tail| + 1 <= limit, parts + [tail], bytes + |tail|;
  }

  lemma StillScanned<S>(step: (S, seq<byte>) -> Option<S>, initial: S, content: seq<byte>, limit: nat,
                        chunk: seq<byte>, offset: nat, start: nat, index: nat,
                        parts: seq<seq<byte>>, bytes: nat, state: S)
    requires offset + |chunk| <= |content| && index < |chunk| && chunk[index] != NEWLINE
    requires Scanned(step, initial, content, limit, chunk, offset, start, index, parts, bytes, state)
    ensures Scanned(step, initial, content, limit, chunk, offset, start, index + 1, parts, bytes, state)
  {
    assert chunk[start..index + 1] == chunk[start..index] + [chunk[index]];
  }

  /** One buffer's worth: replay every record that ends in it, then keep its tail. */
  method ReadChunk<S>(step: (S, seq<byte>) -> Option<S>, ghost initial: S, ghost content: seq<byte>, limit: nat,
                      chunk: seq<byte>, ghost offset: nat, kept: seq<seq<byte>>, held: nat, reached: S)
      returns (ok: bool, parts: seq<seq<byte>>, bytes: nat, state: S)
    requires limit >= 1 && offset + |chunk| <= |content| && chunk == content[offset..offset + |chunk|]
    requires Reached(step, initial, content, limit, offset, kept, held, reached)
    ensures ok ==> Reached(step, initial, content, limit, offset + |chunk|, parts, bytes, state)
    ensures !ok ==> ReadSpec(step, initial, content, limit).None?
  {
    ok, parts, bytes, state := true, kept, held, reached;
    var start: nat := 0;
    for index := 0 to |chunk|
      invariant ok && Scanned(step, initial, content, limit, chunk, offset, start, index, parts, bytes, state)
    {
      if chunk[index] == NEWLINE {
        var next := EndRecord(step, initial, content, limit, chunk, offset, start, index, parts, bytes, state);
        if next.None? {
          ok := false;
          return;
        }
        state := next.value;
        parts, bytes, start := [], 0, index + 1;
      } else {
        StillScanned(step, initial, content, limit, chunk, offset, start, index, parts, bytes, state);
      }
    }
    if start < |chunk| {
      ok, parts, bytes := KeepTail(step, initial, content, limit, chunk, offset, start, parts, bytes, state);
    }
  }

  /** Replays exactly the newline-separated records of the file, through a buffer of any size, and never
      carries more than the limit. */
  method ReadBounded<S>(step: (S, seq<byte>) -> Option<S>, initial: S, content: seq<byte>, limit: nat)
    returns (r: Option<S>)
    requires limit >= 1
    ensures r == ReadSpec(step, initial, content, limit)
  {
    var buffer := new byte[Min(65_536, limit)];
    var parts: seq<seq<byte>> := [];
    var bytes: nat, offset: nat, state := 0, 0, initial;
    var ok := true;
    assert content[..0] == [];
    while true
      invariant offset <= |content| && Reached(step, initial, content, limit, offset, parts, bytes, state)
      decreases |content| - offset
    {
      var count := ReadAt(content, buffer, offset);
      if count == 0 {
        break;
      }
      ok, parts, bytes, state := ReadChunk(step, initial, content, limit, buffer[..count], offset, parts, bytes, state);
      if !ok {
        return None;
      }
      offset := offset + count;
    }
    assert content[..offset] == content;
    r := if bytes != 0 then None else Some(state);
  }
}
