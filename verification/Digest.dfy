/** A file being written, and the writer that hashes exactly what the file accepted. */
module Digest {
  import opened Prelude

  type Byte = b: int | 0 <= b < 256

  /** An I/O failure, and whether it is put down to this host, as `names_the_host` decides. */
  datatype IoError = IoError(hostFault: bool)

  /** How the disk answers one write; a write past the script is accepted whole. */
  datatype WriteOutcome = Accepts(n: nat) | Interrupts | Refuses(error: IoError)

  datatype WriteResult = Wrote(n: nat) | WouldRetry | WriteFailed(error: IoError)

  /** The disk takes every write sooner or later. */
  ghost predicate Gentle(script: seq<WriteOutcome>) {
    script == [] ||
    ((script[0].Interrupts? || (script[0].Accepts? && script[0].n > 0)) && Gentle(script[1..]))
  }

  /** What a disk with this script answers to a write of `n` bytes. */
  function Answer(script: seq<WriteOutcome>, n: nat): WriteResult {
    if script == [] then Wrote(n)
    else
      match script[0]
      case Accepts(k) => Wrote(Min(k, n))
      case Interrupts => WouldRetry
      case Refuses(error) => WriteFailed(error)
  }

  function Rest(script: seq<WriteOutcome>): seq<WriteOutcome> {
    if script == [] then [] else script[1..]
  }

  /** Why a file cannot be created, if it cannot. */
  function CreateRefused(script: seq<WriteOutcome>): Option<IoError> {
    if script != [] && script[0].Refuses? then Some(script[0].error) else None
  }

  /** How writing `n` bytes to the end comes out: how many the disk took, and what is left of its script. */
  datatype Spooled = Spooled(taken: nat, script: seq<WriteOutcome>, failed: Option<IoError>)

  function Spool(script: seq<WriteOutcome>, n: nat): (r: Spooled)
    ensures if r.failed.None? then r.taken == n else r.taken < n
    decreases |script|
  {
    if n == 0 then Spooled(0, script, None)
    else if script == [] then Spooled(n, [], None)
    else
      match Answer(script, n)
      case Wrote(k) =>
        if k == 0 then Spooled(0, Rest(script), Some(IoError(false)))
        else
          var more := Spool(Rest(script), n - k);
          more.(taken := k + more.taken)
      case WouldRetry => Spool(Rest(script), n)
      case WriteFailed(error) => Spooled(0, Rest(script), Some(error))
  }

  lemma {:induction false} GentleSpools(script: seq<WriteOutcome>, n: nat)
    requires Gentle(script)
    ensures Spool(script, n).failed.None? && Gentle(Spool(script, n).script)
    decreases |script|
  {
    if n > 0 && script != [] {
      match Answer(script, n)
      case Wrote(k) => GentleSpools(Rest(script), n - k);
      case WouldRetry => GentleSpools(Rest(script), n);
    }
  }

  lemma Extends(bytes: seq<Byte>, buf: seq<Byte>, m: nat, n: nat)
    requires m + n <= |buf|
    ensures (bytes + buf[..m]) + buf[m..][..n] == bytes + buf[..m + n] && buf[m..][n..] == buf[m + n..]
  {
  }

  /** The file at the download's destination, on a disk with a script of its answers. */
  class DestFile {
    var bytes: seq<Byte>
    var script: seq<WriteOutcome>

    constructor (script: seq<WriteOutcome>)
      ensures bytes == [] && this.script == script
    {
      this.bytes := [];
      this.script := script;
    }

    /** `File::create`: an empty file, unless the disk refuses. */
    method Create() returns (refused: Option<IoError>)
      modifies this
      ensures refused == CreateRefused(old(script)) && script == Rest(old(script))
      ensures bytes == if refused.None? then [] else old(bytes)
    {
      refused := CreateRefused(script);
      script := Rest(script);
      if refused.None? {
        bytes := [];
      }
    }

    /** A write accepts a prefix of the buffer, possibly short. */
    method Write(buf: seq<Byte>) returns (r: WriteResult)
      modifies this
      ensures r == Answer(old(script), |buf|) && script == Rest(old(script))
      ensures r.Wrote? ==> r.n <= |buf|
      ensures bytes == old(bytes) + (if r.Wrote? then buf[..r.n] else [])
    {
      r := Answer(script, |buf|);
      script := Rest(script);
      if r.Wrote? {
        bytes := bytes + buf[..r.n];
      }
    }
  }

  class HashingWriter {
    const inner: DestFile
    /** The bytes the hasher has consumed; finalizing hashes them. */
    var hashed: seq<Byte>
    var written: nat
    /** Bytes the file accepted in a write that failed as a whole, which progress never saw. */
    ghost var uncounted: nat

    constructor (inner: DestFile)
      ensures this.inner == inner && hashed == [] && written == 0 && uncounted == 0
    {
      this.inner := inner;
      hashed, written, uncounted := [], 0, 0;
    }

    /** The digest and the count follow the file. */
    ghost predicate Valid()
      reads this, inner
    {
      hashed == inner.bytes && written == |inner.bytes|
    }

    /** The file grows by what the disk answered, and the hash and the count with it. */
    method Write(buf: seq<Byte>) returns (r: WriteResult)
      requires Valid()
      modifies this, inner
      ensures Valid() && uncounted == old(uncounted)
      ensures r == Answer(old(inner.script), |buf|) && inner.script == Rest(old(inner.script))
      ensures r.Wrote? ==> r.n <= |buf|
      ensures inner.bytes == old(inner.bytes) + (if r.Wrote? then buf[..r.n] else [])
    {
      r := inner.Write(buf);
      if r.Wrote? {
        hashed := hashed + buf[..r.n];
        written := written + r.n;
      }
    }

    /** `write_all`: what the disk takes lands, hashed and counted, also when it then fails. */
    method WriteAll(buf: seq<Byte>) returns (failed: Option<IoError>)
      requires Valid()
      modifies this, inner
      ensures Valid()
      ensures var w := Spool(old(inner.script), |buf|);
              && failed == w.failed && inner.script == w.script
              && inner.bytes == old(inner.bytes) + buf[..w.taken]
              && uncounted == old(uncounted) + (if failed.None? then 0 else w.taken)
    {
      var rest := buf;
      ghost var done: nat := 0;
      ghost var w := Spool(inner.script, |buf|);
      while rest != []
        invariant Valid() && uncounted == old(uncounted)
        invariant done <= |buf| && rest == buf[done..]
        invariant inner.bytes == old(inner.bytes) + buf[..done]
        invariant var more := Spool(inner.script, |rest|);
                  w == more.(taken := done + more.taken)
        decreases |inner.script|, |rest|
      {
        var r := Write(rest);
        match r
        case Wrote(n) =>
          if n == 0 {
            uncounted := uncounted + done;
            return Some(IoError(false));
          }
          Extends(old(inner.bytes), buf, done, n);
          rest := rest[n..];
          done := done + n;
        case WouldRetry =>
        case WriteFailed(error) =>
          uncounted := uncounted + done;
          return Some(error);
      }
      failed := None;
    }
  }
}
