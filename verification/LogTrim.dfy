/**
 * The browser's log file: trimmed in place at start to its last bytes, through a handle whose reads
 * and writes may be short or fail, and then only appended to.
 */
module LogTrim {
  import opened Options

  type Byte = bv8

  const KEEP_SIZE: nat := 10 * 1024 * 1024
  const BUFFER_SIZE: nat := 128 * 1024

  function Minimum(a: nat, b: nat): nat {
    if a <= b then a else b
  }

  /** The file after some bytes are written at a position; a gap would be filled with zeros. */
  function Overlay(contents: seq<Byte>, position: nat, bytes: seq<Byte>): seq<Byte> {
    var padded := Resized(contents, if position > |contents| then position else |contents|);
    if position + |bytes| <= |padded| then padded[..position] + bytes + padded[position + |bytes|..]
    else padded[..position] + bytes
  }

  function Resized(contents: seq<Byte>, size: nat): (r: seq<Byte>)
    ensures |r| == size
  {
    if size <= |contents| then contents[..size] else contents + seq(size - |contents|, _ => 0)
  }

  /** A synchronous access handle. Every call may fail, and is then counted; reads and writes may stop short. */
  class AccessHandle {
    var contents: seq<Byte>
    ghost var failures: nat

    constructor (initial: seq<Byte>)
      ensures contents == initial && failures == 0
    {
      contents := initial;
      failures := 0;
    }

    method Attempt() returns (ok: bool)
      modifies this`failures
      ensures failures == old(failures) + if ok then 0 else 1
    {
      ok := *;
      if !ok {
        failures := failures + 1;
      }
    }

    method GetSize() returns (r: Option<nat>)
      modifies this`failures
      ensures r.Some? ==> r.value == |contents|
      ensures failures == old(failures) + if r.Some? then 0 else 1
    {
      var ok := Attempt();
      r := if ok then Some(|contents|) else None;
    }

    /** Reads into `buffer[from..to]`; inside the file, at least one byte. */
    method Read(buffer: array<Byte>, from: nat, to: nat, position: nat) returns (r: Option<nat>)
      requires from < to <= buffer.Length && position < |contents|
      modifies buffer, this`failures
      ensures failures == old(failures) + if r.Some? then 0 else 1
      ensures r.Some? ==> 0 < r.value <= to - from && position + r.value <= |contents|
      ensures r.Some? ==> buffer[from..from + r.value] == contents[position..position + r.value]
      ensures forall i :: 0 <= i < buffer.Length && !(from <= i < to) ==> buffer[i] == old(buffer[i])
    {
      var ok := Attempt();
      if !ok {
        return None;
      }
      var most := Minimum(to - from, |contents| - position);
      var n: nat :| 0 < n <= most;
      forall i | 0 <= i < n {
        buffer[from + i] := contents[position + i];
      }
      r := Some(n);
    }

    /** Writes `buffer[from..to]` or a part of it, at least one byte if there is one. */
    method Write(buffer: array<Byte>, from: nat, to: nat, position: nat) returns (r: Option<nat>)
      requires from <= to <= buffer.Length
      modifies this
      ensures r.Some? ==> r.value <= to - from && (r.value == 0 ==> from == to)
      ensures contents == if r.None? then old(contents)
                          else Overlay(old(contents), position, buffer[from..from + r.value])
      ensures failures == old(failures) + if r.Some? then 0 else 1
    {
      var ok := Attempt();
      if !ok {
        return None;
      }
      var n: nat :| n <= to - from && (n == 0 ==> from == to);
      contents := Overlay(contents, position, buffer[from..from + n]);
      r := Some(n);
    }

    method Truncate(size: nat) returns (ok: bool)
      modifies this
      ensures contents == if ok then Resized(old(contents), size) else old(contents)
      ensures failures == old(failures) + if ok then 0 else 1
    {
      ok := Attempt();
      if ok {
        contents := Resized(contents, size);
      }
    }

    method Flush() returns (ok: bool)
      modifies this`failures
      ensures failures == old(failures) + if ok then 0 else 1
    {
      ok := Attempt();
    }
  }

  /** `read_exact`: unless a read fails, the whole range has been read, however short the reads were. */
  method ReadExact(handle: AccessHandle, buffer: array<Byte>, count: nat, position: nat) returns (ok: bool)
    requires count <= buffer.Length && position + count <= |handle.contents|
    modifies buffer, handle`failures
    ensures handle.failures == old(handle.failures) + if ok then 0 else 1
    ensures ok ==> buffer[..count] == handle.contents[position..position + count]
  {
    var totalRead := 0;
    while totalRead < count
      invariant 0 <= totalRead <= count
      invariant buffer[..totalRead] == handle.contents[position..position + totalRead]
      invariant handle.failures == old(handle.failures)
    {
      ghost var before := buffer[..totalRead];
      var n := handle.Read(buffer, totalRead, count, position + totalRead);
      if n.None? {
        return false;
      }
      assert buffer[..totalRead] == before;
      var next := totalRead + n.value;
      assert buffer[..next] == before + buffer[totalRead..next];
      assert handle.contents[position..position + next]
          == handle.contents[position..position + totalRead] + handle.contents[position + totalRead..position + next];
      totalRead := next;
    }
    return true;
  }

  /** `write_exact`: the first `written` bytes of the range are written, all of them unless a write fails. */
  method WriteExact(handle: AccessHandle, buffer: array<Byte>, count: nat, position: nat)
      returns (ok: bool, ghost written: nat)
    requires count <= buffer.Length && position + count <= |handle.contents|
    modifies handle
    ensures written <= count && (ok ==> written == count)
    ensures handle.contents == Overlay(old(handle.contents), position, buffer[..written])
    ensures handle.failures == old(handle.failures) + if ok then 0 else 1
  {
    hide Overlay;
    var totalWritten := 0;
    ghost var original := handle.contents;
    OverlayNothing(original, position);
    assert buffer[..0] == [];
    while totalWritten < count
      invariant 0 <= totalWritten <= count
      invariant handle.contents == Overlay(original, position, buffer[..totalWritten])
      invariant handle.failures == old(handle.failures)
    {
      var n := handle.Write(buffer, totalWritten, count, position + totalWritten);
      if n.None? {
        return false, totalWritten;
      }
      OverlayTwice(original, position, buffer[..totalWritten], buffer[totalWritten..totalWritten + n.value]);
      assert buffer[..totalWritten + n.value] == buffer[..totalWritten] + buffer[totalWritten..totalWritten + n.value];
      totalWritten := totalWritten + n.value;
    }
    return true, totalWritten;
  }

  lemma OverlayNothing(contents: seq<Byte>, position: nat)
    requires position <= |contents|
    ensures Overlay(contents, position, []) == contents
  {
  }

  lemma OverlayStaysInside(contents: seq<Byte>, bytes: seq<Byte>, from: nat)
    requires |bytes| <= from <= |contents|
    ensures |Overlay(contents, 0, bytes)| == |contents|
    ensures Overlay(contents, 0, bytes)[from..] == contents[from..]
    ensures Overlay(contents, 0, bytes)[..from] == bytes + contents[|bytes|..from]
  {
  }

  lemma OverlayTwice(contents: seq<Byte>, position: nat, a: seq<Byte>, b: seq<Byte>)
    requires position + |a| + |b| <= |contents|
    ensures Overlay(Overlay(contents, position, a), position + |a|, b) == Overlay(contents, position, a + b)
  {
  }

  /** The last `n` bytes. */
  function Suffix(contents: seq<Byte>, n: nat): seq<Byte>
    requires n <= |contents|
  {
    contents[|contents| - n..]
  }

  /** A file with the first `copied` of its last `KEEP_SIZE` bytes also at its front. */
  function PartlyCopied(contents: seq<Byte>, copied: nat): seq<Byte>
    requires copied <= KEEP_SIZE <= |contents|
  {
    Overlay(contents, 0, Suffix(contents, KEEP_SIZE)[..copied])
  }

  /** The copying loop: wherever it stops, a part of the kept bytes is at the front, and nothing else changed. */
  method CopyTail(handle: AccessHandle, size: nat) returns (ok: bool, ghost copied: nat)
    requires size == |handle.contents| && size > 2 * KEEP_SIZE
    modifies handle
    ensures copied <= KEEP_SIZE && (ok ==> copied == KEEP_SIZE)
    ensures handle.contents == PartlyCopied(old(handle.contents), copied)
    ensures handle.failures == old(handle.failures) + if ok then 0 else 1
  {
    var startOffset := size - KEEP_SIZE;
    ghost var original := handle.contents;
    ghost var tail := Suffix(original, KEEP_SIZE);
    var totalCopied := 0;
    copied := 0;
    var buffer := new Byte[BUFFER_SIZE](_ => 0);
    OverlayNothing(original, 0);
    assert tail[..0] == [];
    while totalCopied < KEEP_SIZE
      invariant 0 <= totalCopied == copied <= KEEP_SIZE && fresh(buffer) && buffer.Length == BUFFER_SIZE
      invariant handle.contents == Overlay(original, 0, tail[..copied])
      invariant handle.failures == old(handle.failures)
    {
      hide Overlay;
      var chunk := Minimum(KEEP_SIZE - totalCopied, BUFFER_SIZE);
      OverlayStaysInside(original, tail[..copied], startOffset);
      ok := ReadExact(handle, buffer, chunk, startOffset + totalCopied);
      if !ok {
        return;
      }
      ChunkRead(handle.contents, original, startOffset, totalCopied, chunk);
      ghost var written: nat;
      ok, written := WriteExact(handle, buffer, chunk, totalCopied);
      ChunkWritten(original, tail, copied, written, buffer[..chunk]);
      assert buffer[..written] == buffer[..chunk][..written];
      copied := copied + written;
      if !ok {
        return;
      }
      totalCopied := totalCopied + chunk;
    }
    return true, copied;
  }

  lemma ChunkRead(contents: seq<Byte>, original: seq<Byte>, start: nat, copied: nat, chunk: nat)
    requires start + copied + chunk <= |original| == |contents| && contents[start..] == original[start..]
    ensures contents[start + copied..start + copied + chunk] == original[start..][copied..copied + chunk]
  {
    assert forall i :: start <= i < |original| ==>
        contents[i] == contents[start..][i - start] == original[start..][i - start];
  }

  /** Writing a part of the next chunk extends what has been copied by that part. */
  lemma ChunkWritten(original: seq<Byte>, tail: seq<Byte>, copied: nat, written: nat, chunk: seq<Byte>)
    requires copied + |chunk| <= |tail| <= |original| && written <= |chunk|
    requires chunk == tail[copied..copied + |chunk|]
    ensures Overlay(Overlay(original, 0, tail[..copied]), copied, chunk[..written])
         == Overlay(original, 0, tail[..copied + written])
  {
    hide Overlay;
    var front, part := tail[..copied], chunk[..written];
    assert |front| + |part| <= |original|;
    OverlayTwice(original, 0, front, part);
    assert part == tail[copied..copied + written];
    assert tail[..copied + written] == front + part;
  }

  /** What a failed trim leaves: at most a part of the copy, or all of it already cut but not flushed. */
  predicate Stopped(before: seq<Byte>, after: seq<Byte>, copied: nat) {
    if |before| <= 2 * KEEP_SIZE then after == before
    else copied <= KEEP_SIZE && (after == PartlyCopied(before, copied) || after == Suffix(before, KEEP_SIZE))
  }

  /** What a trim is for. */
  function Kept(before: seq<Byte>): seq<Byte> {
    if |before| <= 2 * KEEP_SIZE then before else Suffix(before, KEEP_SIZE)
  }

  /**
   * `trim_log_file_if_needed_inner`. Unless an operation fails, a short file is untouched and a long one is
   * exactly its last `KEEP_SIZE` bytes; the result is the file's length either way.
   */
  method TrimInner(handle: AccessHandle) returns (r: Option<nat>, ghost copied: nat)
    modifies handle
    ensures r.Some? ==> handle.contents == Kept(old(handle.contents)) && r.value == |handle.contents|
    ensures r.None? ==> Stopped(old(handle.contents), handle.contents, copied)
    ensures handle.failures == old(handle.failures) + if r.Some? then 0 else 1
  {
    hide Overlay;
    ghost var original := handle.contents;
    if |original| > 2 * KEEP_SIZE {
      NothingCopied(original);
    }
    copied := 0;
    var size := handle.GetSize();
    if size.None? {
      return None, 0;
    }
    if size.value <= 2 * KEEP_SIZE {
      return size, 0;
    }
    var ok;
    ok, copied := CopyTail(handle, size.value);
    if !ok {
      return None, copied;
    }
    AllCopied(original);
    ok := handle.Truncate(KEEP_SIZE);
    if !ok {
      return None, copied;
    }
    ok := handle.Flush();
    if !ok {
      return None, copied;
    }
    return Some(KEEP_SIZE), copied;
  }

  lemma NothingCopied(contents: seq<Byte>)
    requires KEEP_SIZE <= |contents|
    ensures PartlyCopied(contents, 0) == contents
  {
    assert Suffix(contents, KEEP_SIZE)[..0] == [];
    OverlayNothing(contents, 0);
  }

  /** Cutting a fully copied file leaves exactly its last bytes. */
  lemma AllCopied(contents: seq<Byte>)
    requires 2 * KEEP_SIZE < |contents|
    ensures Resized(PartlyCopied(contents, KEEP_SIZE), KEEP_SIZE) == Suffix(contents, KEEP_SIZE)
  {
    PartlyCut(contents, KEEP_SIZE);
  }

  /** Cutting a partly copied one leaves what was copied, and then the front of the old file. */
  lemma PartlyCut(contents: seq<Byte>, copied: nat)
    requires 2 * KEEP_SIZE < |contents| && copied <= KEEP_SIZE
    ensures Resized(PartlyCopied(contents, copied), KEEP_SIZE)
         == Suffix(contents, KEEP_SIZE)[..copied] + contents[copied..KEEP_SIZE]
  {
    OverlayStaysInside(contents, Suffix(contents, KEEP_SIZE)[..copied], KEEP_SIZE);
  }

  /** How the start went: trimmed, cut after a failure, or failed at the cut as well. */
  datatype Outcome = Trimmed | Cut | Uncut

  /** The file and the position for later writes after each outcome. */
  predicate Starts(before: seq<Byte>, after: seq<Byte>, position: nat, outcome: Outcome, copied: nat) {
    match outcome
    case Trimmed => after == Kept(before) && position == |after|
    case Cut =>
      && position == |after| == KEEP_SIZE
      && if |before| <= 2 * KEEP_SIZE then after == Resized(before, KEEP_SIZE)
         else copied <= KEEP_SIZE && after == Suffix(before, KEEP_SIZE)[..copied] + before[copied..KEEP_SIZE]
    case Uncut => Stopped(before, after, copied) && position == KEEP_SIZE
  }

  /** A failed trim followed by the cut. */
  lemma StoppedThenCut(before: seq<Byte>, after: seq<Byte>, copied: nat)
    requires Stopped(before, after, copied)
    ensures exists c :: Starts(before, Resized(after, KEEP_SIZE), KEEP_SIZE, Cut, c)
  {
    hide Overlay;
    var cut := Resized(after, KEEP_SIZE);
    if |before| <= 2 * KEEP_SIZE {
      assert Starts(before, cut, KEEP_SIZE, Cut, 0);
    } else if after == PartlyCopied(before, copied) {
      PartlyCut(before, copied);
      assert Starts(before, cut, KEEP_SIZE, Cut, copied);
    } else {
      assert Starts(before, cut, KEEP_SIZE, Cut, KEEP_SIZE);
    }
  }

  /** `trim_log_file_if_needed`: when trimming failed the file is cut to `KEEP_SIZE` as it stands. */
  method TrimIfNeeded(handle: AccessHandle) returns (position: nat, ghost outcome: Outcome, ghost copied: nat)
    modifies handle
    ensures Starts(old(handle.contents), handle.contents, position, outcome, copied)
    ensures outcome.Trimmed? <==> handle.failures == old(handle.failures)
    ensures outcome.Uncut? ==> handle.failures >= old(handle.failures) + 2
  {
    var r: Option<nat>;
    r, copied := TrimInner(handle);
    if r.Some? {
      return r.value, Trimmed, copied;
    }
    StoppedThenCut(old(handle.contents), handle.contents, copied);
    var cut := handle.Truncate(KEEP_SIZE);
    var flushed := handle.Flush();
    if cut {
      copied :| Starts(old(handle.contents), handle.contents, KEEP_SIZE, Cut, copied);
    }
    return KEEP_SIZE, if cut then Cut else Uncut, copied;
  }

  class WasmLogFile {
    const handle: AccessHandle
    var writePosition: nat
    ghost const outcome: Outcome
    ghost const copied: nat

    /** The position later writes go to is the end of the file. */
    ghost predicate AtEnd()
      reads this, handle
    {
      writePosition == |handle.contents|
    }

    /** Writing starts at the end, unless the cut failed too and left a file of another length. */
    constructor (h: AccessHandle)
      modifies h
      ensures handle == h && Starts(old(h.contents), h.contents, writePosition, outcome, copied)
      ensures outcome.Trimmed? <==> h.failures == old(h.failures)
      ensures outcome.Uncut? ==> h.failures >= old(h.failures) + 2
      ensures AtEnd() <==> outcome != Uncut || |h.contents| == KEEP_SIZE
    {
      var position, how, part := TrimIfNeeded(h);
      handle := h;
      writePosition := position;
      outcome := how;
      copied := part;
    }

    /**
     * `write`: a part of the bytes goes to the position, which moves past it. At the end of the file
     * that appends, and stays at the end; elsewhere the end is reached again only by writing up to it.
     */
    method Write(bytes: array<Byte>) returns (r: Option<nat>)
      modifies this, handle
      ensures r.None? ==> handle.contents == old(handle.contents) && writePosition == old(writePosition)
      ensures r.Some? ==>
                && r.value <= bytes.Length && (r.value == 0 ==> bytes.Length == 0)
                && handle.contents == Overlay(old(handle.contents), old(writePosition), bytes[..r.value])
                && writePosition == old(writePosition) + r.value
                && (AtEnd() <==> writePosition >= |old(handle.contents)|)
      ensures handle.failures == old(handle.failures) + if r.Some? then 0 else 1
      ensures old(AtEnd()) ==>
                AtEnd() && handle.contents == old(handle.contents) + if r.Some? then bytes[..r.value] else []
    {
      r := handle.Write(bytes, 0, bytes.Length, writePosition);
      if r.Some? {
        writePosition := writePosition + r.value;
      }
    }
  }
}
