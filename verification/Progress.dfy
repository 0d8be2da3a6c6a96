/** Byte-level progress of a fetch, and the copy loop that reports it. */
module Progress {
  import opened Prelude
  import opened Digest

  const COPY_BUFFER: nat := 8 * 1024

  /** What one read gives; past the last event the body has ended. */
  datatype ReadEvent = Chunk(bytes: seq<Byte>) | ReadInterrupted | Broken(error: IoError)

  /** The bytes a body carries, breaks aside. */
  function Payload(events: seq<ReadEvent>): seq<Byte> {
    if events == [] then []
    else (match events[0] case Chunk(bytes) => bytes case _ => []) + Payload(events[1..])
  }

  /** A chunk a read of the copy loop can give. */
  predicate Fits(bytes: seq<Byte>) {
    0 < |bytes| <= COPY_BUFFER
  }

  /** The bytes reading the body gives, up to its end or its first failure. */
  function Landed(events: seq<ReadEvent>): seq<Byte> {
    if events == [] then []
    else
      match events[0]
      case Chunk(bytes) => if Fits(bytes) then bytes + Landed(events[1..]) else []
      case ReadInterrupted => Landed(events[1..])
      case Broken(_) => []
  }

  /** How reading the body fails, if it does. */
  function ReadFailure(events: seq<ReadEvent>): Option<IoError> {
    if events == [] then None
    else
      match events[0]
      case Chunk(bytes) =>
        if Fits(bytes) then ReadFailure(events[1..]) else if bytes == [] then None else Some(IoError(false))
      case ReadInterrupted => ReadFailure(events[1..])
      case Broken(error) => Some(error)
  }

  /** How a copy comes out on a disk: what it adds to the file, what is left of the disk's script, how it
    * failed, and how many bytes the disk took of a write that failed. */
  datatype Copied = Copied(bytes: seq<Byte>, script: seq<WriteOutcome>, failed: Option<IoError>, uncounted: nat)

  function CopyOf(events: seq<ReadEvent>, script: seq<WriteOutcome>): Copied {
    if events == [] then Copied([], script, None, 0)
    else
      match events[0]
      case Chunk(bytes) =>
        if bytes == [] then Copied([], script, None, 0)
        else if !Fits(bytes) then Copied([], script, Some(IoError(false)), 0)
        else
          var w := Spool(script, |bytes|);
          if w.failed.Some? then Copied(bytes[..w.taken], w.script, w.failed, w.taken)
          else
            var more := CopyOf(events[1..], w.script);
            more.(bytes := bytes + more.bytes)
      case ReadInterrupted => CopyOf(events[1..], script)
      case Broken(error) => Copied([], script, Some(error), 0)
  }

  /** What a copy adds is a prefix of what reading the body gives, and just that, with the same failure,
    * when the copy succeeds or the disk takes every write. */
  lemma {:induction false} CopyIsReading(events: seq<ReadEvent>, script: seq<WriteOutcome>)
    ensures CopyOf(events, script).bytes <= Landed(events)
    ensures CopyOf(events, script).failed.None? || Gentle(script) ==>
              && CopyOf(events, script).bytes == Landed(events)
              && CopyOf(events, script).failed == ReadFailure(events)
              && CopyOf(events, script).uncounted == 0
    ensures Gentle(script) ==> Gentle(CopyOf(events, script).script)
  {
    if events != [] {
      match events[0]
      case Chunk(bytes) =>
        if Fits(bytes) {
          if Gentle(script) {
            GentleSpools(script, |bytes|);
          }
          CopyIsReading(events[1..], Spool(script, |bytes|).script);
        }
      case ReadInterrupted => CopyIsReading(events[1..], script);
      case Broken(_) =>
    }
  }

  lemma {:induction false} LandedIsPrefix(events: seq<ReadEvent>)
    ensures Landed(events) <= Payload(events)
  {
    if events != [] {
      LandedIsPrefix(events[1..]);
      assert [] + Payload(events[1..]) == Payload(events[1..]);
    }
  }

  /** A body that ends without breaking and fits the copy buffer. */
  ghost predicate Whole(events: seq<ReadEvent>) {
    forall i :: 0 <= i < |events| ==> events[i].ReadInterrupted? || (events[i].Chunk? && Fits(events[i].bytes))
  }

  lemma {:induction false} WholeLands(events: seq<ReadEvent>)
    requires Whole(events)
    ensures Landed(events) == Payload(events) && ReadFailure(events) == None
  {
    if events != [] {
      WholeLands(events[1..]);
      assert [] + Payload(events[1..]) == Payload(events[1..]);
    }
  }

  lemma WholeCopies(events: seq<ReadEvent>, script: seq<WriteOutcome>)
    ensures Whole(events) && Gentle(script) ==>
              && CopyOf(events, script).bytes == Payload(events) && CopyOf(events, script).failed.None?
              && CopyOf(events, script).uncounted == 0
  {
    CopyIsReading(events, script);
    if Whole(events) {
      WholeLands(events);
    }
  }

  class Reporter {
    var totalBytes: Option<nat>
    var doneBytes: nat

    constructor (totalBytes: Option<nat>)
      ensures this.totalBytes == totalBytes && doneBytes == 0
    {
      this.totalBytes := totalBytes;
      doneBytes := 0;
    }

    method Advance(n: nat)
      modifies this`doneBytes
      ensures doneBytes == old(doneBytes) + n
    {
      doneBytes := doneBytes + n;
    }

    /** Whatever was counted above `mark` is no longer counted. */
    method Rewind(mark: nat)
      modifies this`doneBytes
      ensures doneBytes == Min(old(doneBytes), mark)
    {
      doneBytes := Min(doneBytes, mark);
    }

    method SetTotalIfUnknown(total: Option<nat>)
      modifies this`totalBytes
      ensures totalBytes == if old(totalBytes).None? then total else old(totalBytes)
    {
      if totalBytes.None? {
        totalBytes := total;
      }
    }

    /** Afterwards a total is known and the count is at least that; the count never falls. */
    method Finish()
      modifies this
      ensures totalBytes == Some(if old(totalBytes).Some? then old(totalBytes).value else old(doneBytes))
      ensures doneBytes == Max(old(doneBytes), totalBytes.value)
    {
      if totalBytes.None? {
        totalBytes := Some(doneBytes);
      }
      Advance(Max(0, totalBytes.value - doneBytes));
    }
  }

  /** Adding `landed` and copying on from event `i` comes to `whole`. */
  ghost predicate Copying(whole: Copied, events: seq<ReadEvent>, i: nat, landed: seq<Byte>, script: seq<WriteOutcome>) {
    && i <= |events|
    && var more := CopyOf(events[i..], script);
    whole == more.(bytes := landed + more.bytes)
  }

  /** The next event is copied, or the copy is over. */
  lemma CopyingStep(whole: Copied, events: seq<ReadEvent>, i: nat, landed: seq<Byte>, script: seq<WriteOutcome>)
    requires Copying(whole, events, i, landed, script)
    ensures i == |events| ==> whole == Copied(landed, script, None, 0)
    ensures i < |events| && events[i].ReadInterrupted? ==> Copying(whole, events, i + 1, landed, script)
    ensures i < |events| && events[i].Broken? ==> whole == Copied(landed, script, Some(events[i].error), 0)
    ensures i < |events| && events[i].Chunk? && !Fits(events[i].bytes) ==>
              whole == Copied(landed, script, if events[i].bytes == [] then None else Some(IoError(false)), 0)
    ensures i < |events| && events[i].Chunk? && Fits(events[i].bytes) ==>
              var w := Spool(script, |events[i].bytes|);
              if w.failed.Some? then whole == Copied(landed + events[i].bytes[..w.taken], w.script, w.failed, w.taken)
              else Copying(whole, events, i + 1, landed + events[i].bytes, w.script)
  {
    var rest := events[i..];
    assert landed + [] == landed;
    if i < |events| {
      assert rest[0] == events[i] && rest[1..] == events[i + 1..];
      if events[i].Chunk? {
        Regroup(landed, events[i].bytes, CopyOf(rest[1..], Spool(script, |events[i].bytes|).script).bytes);
      }
    }
  }

  lemma Regroup(a: seq<Byte>, b: seq<Byte>, c: seq<Byte>)
    ensures (a + b) + c == a + (b + c)
  {
  }

  /** The copy loop. What it adds to the file, how it fails and
    * what it asks of the disk are exact; the count grows by what landed short of the bytes of a failed
    * write; and a whole body lands whole on a disk that takes every write. */
  method CopyReporting(events: seq<ReadEvent>, writer: HashingWriter, reporter: Reporter)
    returns (failed: Option<IoError>)
    requires writer.Valid()
    modifies writer, writer.inner, reporter`doneBytes
    ensures writer.Valid()
    ensures var c := CopyOf(events, old(writer.inner.script));
            && failed == c.failed && writer.inner.script == c.script
            && writer.inner.bytes == old(writer.inner.bytes) + c.bytes
            && writer.uncounted == old(writer.uncounted) + c.uncounted
            && reporter.doneBytes + c.uncounted == old(reporter.doneBytes) + |c.bytes|
    ensures old(reporter.doneBytes) <= reporter.doneBytes
    ensures Whole(events) && old(Gentle(writer.inner.script)) ==>
              && failed.None? && writer.inner.bytes == old(writer.inner.bytes) + Payload(events)
              && reporter.doneBytes == old(reporter.doneBytes) + |Payload(events)|
  {
    ghost var c := CopyOf(events, writer.inner.script);
    WholeCopies(events, writer.inner.script);
    ghost var landed := [];
    var i := 0;
    assert events[0..] == events && [] + c.bytes == c.bytes;
    while i < |events|
      invariant 0 <= i <= |events| && writer.Valid()
      invariant Copying(c, events, i, landed, writer.inner.script)
      invariant writer.inner.bytes == old(writer.inner.bytes) + landed
      invariant writer.uncounted == old(writer.uncounted)
      invariant reporter.doneBytes == old(reporter.doneBytes) + |landed|
    {
      CopyingStep(c, events, i, landed, writer.inner.script);
      match events[i] {
      case Chunk(bytes) =>
        if bytes == [] {
          return None;
        }
        if |bytes| > COPY_BUFFER {
          return Some(IoError(false));
        }
        ghost var taken := Spool(writer.inner.script, |bytes|).taken;
        Regroup(old(writer.inner.bytes), landed, bytes[..taken]);
        failed := writer.WriteAll(bytes);
        landed := landed + bytes[..taken];
        if failed.Some? {
          return;
        }
        assert bytes[..taken] == bytes;
        reporter.Advance(|bytes|);
      case ReadInterrupted =>
      case Broken(error) =>
        return Some(error);
      }
      i := i + 1;
    }
    CopyingStep(c, events, i, landed, writer.inner.script);
    failed := None;
  }
}
