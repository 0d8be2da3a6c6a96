/** Fetching a vault object: each try reads the record, streams into the file and compares the digest
  * with the pin; the loop decides which tries are followed by another. */
module Vault {
  import opened Prelude
  import opened Digest
  import opened Progress
  import opened Resume

  /** The digest and size the server pins an object to. */
  datatype Record = Record(sha256: string, bytes: nat)

  datatype RecordReply = Recorded(record: Record) | NotRecorded(error: HttpError)

  datatype VaultError =
    | Unregistered
    | Refused(status: nat)
    | PinDisagrees(plan: string, pin: string)
    | Drift(pin: string, actual: string)
    | ResumedDrift(resumedAt: nat, pin: string, actual: string)
    | Mgmt(http: HttpError)
    | Io(io: IoError)

  datatype Fetched = Ok(record: Record) | Err(error: VaultError)

  /** Only a 403 and a 404 become `Refused`, and those are never retried. */
  function Refusal(error: HttpError): VaultError {
    if error.status == Some(403) || error.status == Some(404) then Refused(error.status.value) else Mgmt(error)
  }

  /** The errors the retry loop tries again after; none of them carries a wait. */
  predicate Transient(error: VaultError) {
    match error
    case Mgmt(http) => http.transient || http.status == Some(429)
    case Io(io) => !io.hostFault
    case ResumedDrift(_, _, _) => true
    case _ => false
  }

  /** The hash, which header values are entity tags, and the records the server returns. */
  datatype Vault = Vault(sha: seq<Byte> -> string, isTag: string -> bool, records: nat -> RecordReply)

  /** The file of a record goes by the record's quoted pin, if that is a tag at all, and its size. */
  function ExpectOf(v: Vault, record: Record): Expect {
    var tag := "\"" + record.sha256 + "\"";
    Expect(if v.isTag(tag) then Some(tag) else None, Some(record.bytes))
  }

  /** The outcome of read number `read`. */
  function ReadRecord(v: Vault, read: nat, pinned: Option<string>): (r: Fetched)
    ensures r.Ok? ==> v.records(read) == Recorded(r.record)
    ensures r.Ok? && pinned.Some? ==> r.record.sha256 == pinned.value
    ensures r.Err? ==> !r.error.Drift? && !r.error.ResumedDrift?
  {
    match v.records(read)
    case Recorded(record) =>
      if pinned.Some? && pinned.value != record.sha256 then Err(PinDisagrees(pinned.value, record.sha256))
      else Ok(record)
    case NotRecorded(error) => Err(Refusal(error))
  }

  /** The bytes on disk hash to the pin and are no shorter than the record says. */
  ghost predicate Verified(v: Vault, record: Record, bytes: seq<Byte>) {
    v.sha(bytes) == record.sha256 && |bytes| >= record.bytes
  }

  // ---------------------------------------------------------------- what a run does

  /** One try of the whole fetch: the record it read, what it returned, and its exchanges. */
  datatype Try = Try(read: Fetched, outcome: Fetched, from: nat, to: nat)

  /** How a run began: where the log stood, the file's bytes, and the disk's script. */
  datatype Origin = Origin(from: nat, bytes: seq<Byte>, script: seq<WriteOutcome>)

  /** The file the run's exchanges make on the disk. */
  ghost function ShapeAt(run: Origin, log: seq<Exchange>): Shape {
    ShapeOf(Shape(run.bytes, None, run.script), log, run.from)
  }

  /** What a body that was answered comes to: one that broke or was not written is the I/O error, a short
    * one is retried, and a whole file is compared with the pin. */
  function Verdict(v: Vault, record: Record, failure: Option<IoError>, shape: Shape): Fetched {
    var actual := v.sha(shape.bytes);
    if failure.Some? then Err(Io(failure.value))
    else if |shape.bytes| < record.bytes then Err(Io(IoError(false)))
    else if actual == record.sha256 then Ok(record)
    else if shape.resumed.Some? then Err(ResumedDrift(shape.resumed.value, record.sha256, actual))
    else Err(Drift(record.sha256, actual))
  }

  /** A try that streamed returns what its last exchange decides. */
  ghost predicate Streams(v: Vault, log: seq<Exchange>, t: Try, run: Origin)
    requires t.read.Ok?
  {
    && t.from < t.to == |log| && Inner(log, t.from)
    && var x, was := log[t.to - 1], ShapeAt(run, log[..t.to - 1]);
    match x.reply
    case Failed(error) => t.outcome == Err(Refusal(error))
    case Answered(_) =>
      && (Starts(x) || Continues(x))
      && t.outcome == Verdict(v, t.read.record, FailureOf(was, x), ShapeAt(run, log))
      && (FailureOf(was, x).None? ==> !ShortRange(x, |ShapeAt(run, log).bytes|, Some(t.read.record.bytes)))
  }

  predicate Drifted(t: Try) {
    t.outcome.Err? && t.outcome.error.ResumedDrift?
  }

  /** The try was answered and left a file to go on with. */
  ghost predicate Broken(log: seq<Exchange>, t: Try, run: Origin)
    requires 0 < t.to <= |log|
  {
    t.outcome.Err? && t.outcome.error.Io? && !Uncreated(ShapeAt(run, log[..t.to - 1]), log[t.to - 1])
  }

  /** The point a file of `n` bytes goes on from. */
  function PointAt(expected: Expect, n: nat): Option<ResumePoint> {
    if n == 0 || expected.etag.None? then None else Some(ResumePoint(n, expected.etag.value, expected.total))
  }

  /** Exchange `x` is what a try with `record` asks first after `log`, `was` being the last that streamed. */
  ghost predicate Follows(v: Vault, log: seq<Exchange>, x: Exchange, record: Record, was: Option<Try>, run: Origin)
    requires was.Some? ==> was.value.read.Ok? && 0 < was.value.to <= |log|
  {
    if was.None? || Drifted(was.value) || ExpectOf(v, was.value.read.record) != ExpectOf(v, record)
    then x.request.None?
    else
      var y := log[was.value.to - 1];
      match y.reply
      case Failed(_) => if Unanswered(y) then x.request == y.request && x.file == y.file else x.request.None?
      case Answered(_) =>
        x.request == if Broken(log, was.value, run)
                     then PointAt(ExpectOf(v, record), |ShapeAt(run, log).bytes|) else None
  }

  /** The last try that streamed. */
  function LastStream(trace: seq<Try>): (r: Option<Try>)
    ensures r.Some? ==> r.value.read.Ok?
  {
    if trace == [] then None
    else if trace[|trace| - 1].read.Ok? then Some(trace[|trace| - 1])
    else LastStream(trace[..|trace| - 1])
  }

  /** The tries of a run, one per read of the record, account for every exchange of its log; each but
    * the last failed in a way that may pass. */
  ghost predicate IsTrace(v: Vault, pinned: Option<string>, log: seq<Exchange>, trace: seq<Try>, run: Origin)
    ensures IsTrace(v, pinned, log, trace, run) ==>
              && run.from <= |log|
              && (LastStream(trace).Some? ==> 0 < LastStream(trace).value.to <= |log|)
    decreases |trace|
  {
    if trace == [] then |log| == run.from
    else
      var i := |trace| - 1;
      var sooner, t := trace[..i], trace[i];
      && t.from <= t.to == |log|
      && IsTrace(v, pinned, log[..t.from], sooner, run)
      && (i > 0 ==> trace[i - 1].outcome.Err? && Transient(trace[i - 1].outcome.error))
      && t.read == ReadRecord(v, i, pinned)
      && (if t.read.Err? then t.outcome == t.read && t.from == t.to
          else
            && Streams(v, log, t, run)
            && Follows(v, log[..t.from], log[t.from], t.read.record, LastStream(sooner), run))
  }

  lemma {:induction false} TryBounds(v: Vault, pinned: Option<string>, log: seq<Exchange>, trace: seq<Try>, run: Origin,
                                     i: nat)
    requires IsTrace(v, pinned, log, trace, run) && i < |trace|
    ensures run.from <= trace[i].from <= trace[i].to <= |log|
    ensures trace[i].read.Ok? ==> trace[i].from < trace[i].to
    decreases |trace|
  {
    if i < |trace| - 1 {
      TryBounds(v, pinned, log[..trace[|trace| - 1].from], trace[..|trace| - 1], run, i);
    }
  }

  /** A run goes on with one more try. */
  lemma TryAdds(v: Vault, pinned: Option<string>, log: seq<Exchange>, trace: seq<Try>, t: Try, run: Origin)
    requires t.from <= t.to == |log| && IsTrace(v, pinned, log[..t.from], trace, run)
    requires trace != [] ==> trace[|trace| - 1].outcome.Err? && Transient(trace[|trace| - 1].outcome.error)
    requires t.read == ReadRecord(v, |trace|, pinned)
    requires if t.read.Err? then t.outcome == t.read && t.from == t.to
             else
               && Streams(v, log, t, run)
               && Follows(v, log[..t.from], log[t.from], t.read.record, LastStream(trace), run)
    ensures IsTrace(v, pinned, log, trace + [t], run)
    ensures LastStream(trace + [t]) == if t.read.Ok? then Some(t) else LastStream(trace)
  {
    var more := trace + [t];
    assert more[..|more| - 1] == trace;
  }

  lemma {:induction false} LastStreamIs(v: Vault, pinned: Option<string>, log: seq<Exchange>, trace: seq<Try>,
                                        run: Origin, i: nat)
    requires IsTrace(v, pinned, log, trace, run)
    requires i < |trace| && trace[i].read.Ok? && trace[i].to == |log|
    ensures LastStream(trace) == Some(trace[i])
    decreases |trace|
  {
    var t := trace[|trace| - 1];
    if i < |trace| - 1 {
      TryBounds(v, pinned, log[..t.from], trace[..|trace| - 1], run, i);
      LastStreamIs(v, pinned, log[..t.from], trace[..|trace| - 1], run, i);
    }
  }

  /** The exchange after a try that streamed is the first of the next that does. */
  lemma {:induction false} NextStream(v: Vault, pinned: Option<string>, log: seq<Exchange>, trace: seq<Try>,
                                      run: Origin, i: nat) returns (k: nat)
    requires IsTrace(v, pinned, log, trace, run)
    requires i < |trace| && trace[i].read.Ok? && trace[i].to < |log| && 0 < trace[i].to
    ensures i < k < |trace| && trace[k].read.Ok? && trace[k].from == trace[i].to
    ensures Follows(v, log[..trace[k].from], log[trace[k].from], trace[k].read.record, Some(trace[i]), run)
    decreases |trace|
  {
    var t, sooner := trace[|trace| - 1], trace[..|trace| - 1];
    TryBounds(v, pinned, log[..t.from], sooner, run, i);
    if trace[i].to < t.from {
      k := NextStream(v, pinned, log[..t.from], sooner, run, i);
      assert log[..t.from][..trace[k].from] == log[..trace[k].from];
    } else {
      LastStreamIs(v, pinned, log[..t.from], sooner, run, i);
      k := |trace| - 1;
    }
  }

  /** Every exchange of the run belongs to a try that streamed. */
  lemma {:induction false} StreamOf(v: Vault, pinned: Option<string>, log: seq<Exchange>, trace: seq<Try>, run: Origin,
                                    n: nat) returns (i: nat)
    requires IsTrace(v, pinned, log, trace, run) && run.from <= n < |log|
    ensures i < |trace| && trace[i].read.Ok? && trace[i].from <= n < trace[i].to <= |log|
    ensures Inner(log[..trace[i].to], trace[i].from)
    decreases |trace|
  {
    var t := trace[|trace| - 1];
    if n < t.from {
      i := StreamOf(v, pinned, log[..t.from], trace[..|trace| - 1], run, n);
      assert log[..t.from][..trace[i].to] == log[..trace[i].to];
    } else {
      i := |trace| - 1;
      assert log[..t.to] == log;
    }
  }

  /** After a resumed drift the next request has no range. */
  ghost predicate StartsAfresh(log: seq<Exchange>, trace: seq<Try>) {
    forall i :: 0 <= i < |trace| && Drifted(trace[i]) && trace[i].to < |log| ==> log[trace[i].to].request.None?
  }

  /** Exchange `n` ends try `i`, and the next request, by try `k`, asks the same of the same file if its
    * record pins the same object, and has no range otherwise. */
  ghost predicate AskedAgain(v: Vault, log: seq<Exchange>, trace: seq<Try>, n: nat, i: nat, k: nat) {
    && i < k < |trace| && trace[i].read.Ok? && trace[k].read.Ok? && trace[i].to == n + 1 == trace[k].from < |log|
    && if ExpectOf(v, trace[i].read.record) == ExpectOf(v, trace[k].read.record)
       then log[n + 1].request == log[n].request && log[n + 1].file == log[n].file
       else log[n + 1].request.None?
  }

  /** A range request that failed without being judged keeps the file. */
  ghost predicate KeepsUnanswered(v: Vault, log: seq<Exchange>, trace: seq<Try>, from: nat) {
    forall n :: from <= n < |log| - 1 && Unanswered(log[n]) ==> exists i, k :: AskedAgain(v, log, trace, n, i, k)
  }

  lemma {:induction false} ReadIsNoDrift(v: Vault, pinned: Option<string>, log: seq<Exchange>, trace: seq<Try>,
                                         run: Origin, i: nat)
    requires IsTrace(v, pinned, log, trace, run) && i < |trace| && Drifted(trace[i])
    ensures trace[i].read.Ok?
    decreases |trace|
  {
    if i < |trace| - 1 {
      var t := trace[|trace| - 1];
      ReadIsNoDrift(v, pinned, log[..t.from], trace[..|trace| - 1], run, i);
    }
  }

  lemma RunRestarts(v: Vault, pinned: Option<string>, log: seq<Exchange>, trace: seq<Try>, run: Origin)
    requires IsTrace(v, pinned, log, trace, run)
    ensures StartsAfresh(log, trace) && KeepsUnanswered(v, log, trace, run.from)
  {
    forall i | 0 <= i < |trace| && Drifted(trace[i]) && trace[i].to < |log|
      ensures log[trace[i].to].request.None?
    {
      ReadIsNoDrift(v, pinned, log, trace, run, i);
      TryBounds(v, pinned, log, trace, run, i);
      var k := NextStream(v, pinned, log, trace, run, i);
    }
    forall n | run.from <= n < |log| - 1 && Unanswered(log[n])
      ensures exists i, k :: AskedAgain(v, log, trace, n, i, k)
    {
      var i := StreamOf(v, pinned, log, trace, run, n);
      if n + 1 < trace[i].to {
        InnerAt(log[..trace[i].to], trace[i].from, n);
      }
      var k := NextStream(v, pinned, log, trace, run, i);
      assert !Drifted(trace[i]) by { FailsByRefusal(v, pinned, log, trace, run, i); }
      assert AskedAgain(v, log, trace, n, i, k);
    }
  }

  lemma {:induction false} FailsByRefusal(v: Vault, pinned: Option<string>, log: seq<Exchange>, trace: seq<Try>,
                                          run: Origin, i: nat)
    requires IsTrace(v, pinned, log, trace, run)
    requires i < |trace| && trace[i].read.Ok? && 0 < trace[i].to <= |log| && log[trace[i].to - 1].reply.Failed?
    ensures trace[i].outcome == Err(Refusal(log[trace[i].to - 1].reply.error))
    decreases |trace|
  {
    if i < |trace| - 1 {
      var t := trace[|trace| - 1];
      TryBounds(v, pinned, log[..t.from], trace[..|trace| - 1], run, i);
      FailsByRefusal(v, pinned, log[..t.from], trace[..|trace| - 1], run, i);
    }
  }

  // ---------------------------------------------------------------- the fetch

  /** The kept file is what the last try that streamed left. */
  ghost predicate Remembers(v: Vault, log: seq<Exchange>, partial: Option<Partial>, was: Option<Try>, run: Origin)
    requires was.Some? ==> was.value.read.Ok? && 0 < was.value.to <= |log|
    reads if partial.Some? then {partial.value.writer} else {}
  {
    if was.None? then partial.None?
    else
      var x := log[was.value.to - 1];
      && (partial.Some? ==> partial.value.expected == ExpectOf(v, was.value.read.record))
      && (x.reply.Failed? ==> KeptAfter(x, partial))
      && (Drifted(was.value) ==> partial.None?)
      && (x.reply.Answered? ==> (partial.Some? <==> Broken(log, was.value, run)))
  }

  /** What the retry loop carries between attempts. */
  ghost predicate Carries(v: Vault, wire: Wire, dest: DestFile, doneBytes: nat, partial: Option<Partial>, start: nat,
                          objectOf: string -> seq<Byte>, was: Option<Try>, run: Origin)
    reads wire, dest, if partial.Some? then {partial.value.writer, partial.value.writer.inner} else {}
  {
    && wire.Valid() && Disciplined(wire.log) && start <= doneBytes
    && (partial.Some? ==> Fine(wire.log, partial.value, dest, start, doneBytes, objectOf))
    && HasShape(partial, dest, ShapeAt(run, wire.log))
    && (Gentle(run.script) ==> StaysGentle(partial, dest))
    && (was.Some? ==> was.value.read.Ok? && 0 < was.value.to <= |wire.log|)
    && Remembers(v, wire.log, partial, was, run)
  }

  predicate SameDisk(s: Shape, t: Shape) {
    s.bytes == t.bytes && s.script == t.script
  }

  lemma EndsAlike(s: Shape, t: Shape, x: Exchange, r: Option<Outcome>, kept: Option<Partial>)
    requires SameDisk(s, t) && Ends(s, x, r, kept)
    ensures Ends(t, x, r, kept)
  {
  }

  /** An attempt's shape is the run's, if the attempt has the run's file or asks for the whole object. */
  lemma ShapeGoesOn(run: Origin, s: Shape, before: seq<Exchange>, log: seq<Exchange>)
    requires run.from <= |before| < |log| && before == log[..|before|] && Inner(log, |before|)
    requires SameDisk(s, ShapeAt(run, before))
    requires s == ShapeAt(run, before) || log[|before|].request.None?
    ensures SameDisk(ShapeOf(s, log, |before|), ShapeAt(run, log))
    ensures s == ShapeAt(run, before) || log[|log| - 1].reply.Answered? ==>
              ShapeOf(s, log, |before|) == ShapeAt(run, log)
    ensures s == ShapeAt(run, before) || |log| == |before| + 1
    ensures SameDisk(ShapeOf(s, log[..|log| - 1], |before|), ShapeAt(run, log[..|log| - 1]))
  {
    ShapeJoins(Shape(run.bytes, None, run.script), before, log, run.from);
    var sooner := log[..|log| - 1];
    assert sooner[..|before|] == before;
    ShapeJoins(Shape(run.bytes, None, run.script), before, sooner, run.from);
    if s != ShapeAt(run, before) {
      if |log| > |before| + 1 {
        InnerAt(log, |before|, |before|);
      }
      assert sooner == before;
    }
  }

  /** A file of the run. */
  ghost predicate Fine(log: seq<Exchange>, file: Partial, dest: DestFile, start: nat, doneBytes: nat,
                       objectOf: string -> seq<Byte>)
    reads file.writer, file.writer.inner
  {
    && Sound(file, dest, start, doneBytes)
    && Unjudged(log, file.writer)
    && (HonestLog(objectOf, log) ==> IsPrefix(objectOf, file))
  }

  /** A file to go on with, or none, as the run has it. */
  ghost predicate InHand(wire: Wire, dest: DestFile, file: Option<Partial>, start: nat, doneBytes: nat,
                         objectOf: string -> seq<Byte>, expected: Expect, run: Origin)
    reads wire, dest, if file.Some? then {file.value.writer, file.value.writer.inner} else {}
  {
    && wire.Valid() && Disciplined(wire.log) && start <= doneBytes && run.from <= |wire.log|
    && (file.Some? ==>
          file.value.expected == expected && Fine(wire.log, file.value, dest, start, doneBytes, objectOf))
    && HasShape(file, dest, ShapeAt(run, wire.log))
    && (Gentle(run.script) ==> StaysGentle(file, dest))
  }

  /** An attempt from exchange `from` ended with `outcome` or left `kept`. */
  ghost predicate Arrived(wire: Wire, dest: DestFile, outcome: Outcome, kept: Option<Partial>, start: nat,
                          doneBytes: nat, objectOf: string -> seq<Byte>, from: nat, expected: Expect, run: Origin)
    reads wire, dest, if kept.Some? then {kept.value.writer, kept.value.writer.inner} else {}
    reads if outcome.Done? then {outcome.file.writer, outcome.file.writer.inner} else {}
  {
    && InHand(wire, dest, Outgoing(Some(outcome), kept), start, doneBytes, objectOf, expected, run)
    && from < |wire.log| && Inner(wire.log, from)
    && Ends(ShapeAt(run, wire.log[..|wire.log| - 1]), wire.log[|wire.log| - 1], Some(outcome), kept)
    && (outcome.Done? && outcome.file.resumedAt.None? ==> FromOneBody(wire.log, dest.bytes))
  }

  lemma EndsInRun(log: seq<Exchange>, outcome: Outcome, kept: Option<Partial>, before: seq<Exchange>, run: Origin,
                  s: Shape)
    requires run.from <= |before| < |log| && before == log[..|before|] && Inner(log, |before|)
    requires SameDisk(s, ShapeAt(run, before))
    requires s == ShapeAt(run, before) || log[|before|].request.None?
    requires Ends(ShapeOf(s, log[..|log| - 1], |before|), log[|log| - 1], Some(outcome), kept)
    ensures Ends(ShapeAt(run, log[..|log| - 1]), log[|log| - 1], Some(outcome), kept)
  {
    ShapeGoesOn(run, s, before, log);
    var sooner := log[..|log| - 1];
    EndsAlike(ShapeOf(s, sooner, |before|), ShapeAt(run, sooner), log[|log| - 1], Some(outcome), kept);
  }

  lemma StaysInHand(wire: Wire, dest: DestFile, file: Option<Partial>, start: nat, doneBytes: nat,
                    objectOf: string -> seq<Byte>, before: seq<Exchange>, expected: Expect, run: Origin, b: Begun)
    requires Keeps(wire, dest, file, start, doneBytes, b, objectOf)
    requires run.from <= |before| == b.from < |wire.log| && before == wire.log[..|before|]
    requires b.fixed == Some(expected)
    requires HonestLog(objectOf, before) ==> b.prefix
    requires Gentle(run.script) ==> b.gentle
    requires SameDisk(b.shape, ShapeAt(run, before))
    requires b.shape == ShapeAt(run, before) || wire.log[|before|].request.None?
    requires file.Some? ==> wire.log[|wire.log| - 1].reply.Answered? || wire.log[|wire.log| - 1].request.Some?
    ensures InHand(wire, dest, file, start, doneBytes, objectOf, expected, run)
  {
    ShapeGoesOn(run, b.shape, before, wire.log);
    HonestlyBefore(objectOf, before, wire.log);
    if file.Some? {
      assert FileOk(wire.log, file.value, dest, start, doneBytes, b, objectOf);
      assert Fine(wire.log, file.value, dest, start, doneBytes, objectOf);
    }
  }

  /** An attempt that began with the run's file ends as the run says. */
  lemma Arrives(wire: Wire, dest: DestFile, outcome: Outcome, kept: Option<Partial>, start: nat, doneBytes: nat,
                objectOf: string -> seq<Byte>, before: seq<Exchange>, expected: Expect, run: Origin, b: Begun)
    requires Keeps(wire, dest, Outgoing(Some(outcome), kept), start, doneBytes, b, objectOf)
    requires Ended(wire.log, dest.bytes, Some(outcome), kept, b)
    requires run.from <= |before| == b.from < |wire.log| && before == wire.log[..|before|]
    requires b.fixed == Some(expected)
    requires HonestLog(objectOf, before) ==> b.prefix
    requires Gentle(run.script) ==> b.gentle
    requires SameDisk(b.shape, ShapeAt(run, before))
    requires b.shape == ShapeAt(run, before) || wire.log[|before|].request.None?
    ensures Arrived(wire, dest, outcome, kept, start, doneBytes, objectOf, |before|, expected, run)
  {
    EndsInRun(wire.log, outcome, kept, before, run, b.shape);
    StaysInHand(wire, dest, Outgoing(Some(outcome), kept), start, doneBytes, objectOf, before, expected, run, b);
  }

  /** The first request an attempt makes with the file the last try left. */
  lemma FirstRequest(v: Vault, wire: Wire, dest: DestFile, doneBytes: nat, partial: Option<Partial>, start: nat,
                     objectOf: string -> seq<Byte>, record: Record, was: Option<Try>, run: Origin, x: Exchange)
    requires Carries(v, wire, dest, doneBytes, partial, start, objectOf, was, run)
    requires var kept := if partial.Some? && partial.value.expected != ExpectOf(v, record) then None else partial;
             AsksFor(x, PointOf(kept), kept)
    ensures Follows(v, wire.log, x, record, was, run)
  {
  }

  /** One attempt with the file in hand. */
  method StreamInto(wire: Wire, dest: DestFile, file: Option<Partial>, start: nat, reporter: Reporter,
                    expected: Expect, ghost objectOf: string -> seq<Byte>, ghost run: Origin)
    returns (outcome: Outcome, kept: Option<Partial>)
    requires expected.total.Some?
    requires InHand(wire, dest, file, start, reporter.doneBytes, objectOf, expected, run)
    modifies wire, dest, reporter`doneBytes, if file.Some? then {file.value.writer} else {}
    ensures |old(wire.log)| < |wire.log| && old(wire.log) == wire.log[..|old(wire.log)|]
    ensures Arrived(wire, dest, outcome, kept, start, reporter.doneBytes, objectOf, |old(wire.log)|, expected, run)
    ensures AsksFor(wire.log[|old(wire.log)|], old(PointOf(file)), file)
    ensures var left := Outgoing(Some(outcome), kept);
            left.Some? ==> fresh(left.value.writer) || (file.Some? && left.value.writer == file.value.writer)
  {
    var always: Body -> Expect := _ => expected;
    ghost var b := Begin(wire, dest, file, objectOf, always, expected);
    assert AlwaysExpects(always, expected);
    outcome, kept := Attempt(wire, dest, file, start, reporter, always, objectOf, expected);
    Arrives(wire, dest, outcome, kept, start, reporter.doneBytes, objectOf, old(wire.log), expected, run, b);
  }

  /** Drop a file of another object, and stream into the one that is left, or a new one. */
  method Stream(v: Vault, record: Record, wire: Wire, dest: DestFile, partial: Option<Partial>, start: nat,
                reporter: Reporter, ghost objectOf: string -> seq<Byte>, ghost was: Option<Try>, ghost run: Origin)
    returns (outcome: Outcome, kept: Option<Partial>)
    requires run.from <= |wire.log|
    requires Carries(v, wire, dest, reporter.doneBytes, partial, start, objectOf, was, run)
    modifies wire, dest, reporter, if partial.Some? then {partial.value.writer} else {}
    ensures |old(wire.log)| < |wire.log| && old(wire.log) == wire.log[..|old(wire.log)|]
    ensures Arrived(wire, dest, outcome, kept, start, reporter.doneBytes, objectOf, |old(wire.log)|,
                    ExpectOf(v, record), run)
    ensures Follows(v, old(wire.log), wire.log[|old(wire.log)|], record, was, run)
    ensures var file := Outgoing(Some(outcome), kept);
            file.Some? ==>
              fresh(file.value.writer) || (partial.Some? && file.value.writer == partial.value.writer)
    ensures reporter.totalBytes ==
              if old(reporter.totalBytes).None? then Some(record.bytes) else old(reporter.totalBytes)
  {
    var expected := ExpectOf(v, record);
    kept := if partial.Some? && partial.value.expected != expected then None else partial;
    ghost var point := PointOf(kept);
    assert forall x :: AsksFor(x, point, kept) ==> Follows(v, wire.log, x, record, was, run) by {
      forall x | AsksFor(x, point, kept) ensures Follows(v, wire.log, x, record, was, run) {
        FirstRequest(v, wire, dest, reporter.doneBytes, partial, start, objectOf, record, was, run, x);
      }
    }
    reporter.SetTotalIfUnknown(Some(record.bytes));
    outcome, kept := StreamInto(wire, dest, kept, start, reporter, expected, objectOf, run);
  }

  /** On success the file is in hand, and on a disk that takes every write progress has counted it. */
  ghost predicate Delivered(v: Vault, log: seq<Exchange>, dest: DestFile, doneBytes: nat, start: nat,
                            objectOf: string -> seq<Byte>, r: Fetched, file: Option<Partial>, run: Origin)
    reads dest, if file.Some? then {file.value.writer, file.value.writer.inner} else {}
  {
    r.Ok? ==>
      && file.Some? && file.value.expected == ExpectOf(v, r.record)
      && Fine(log, file.value, dest, start, doneBytes, objectOf)
      && (Gentle(run.script) ==> file.value.writer.uncounted == 0)
  }

  /** Stream one try and judge the file: what it returns and keeps, and what it asked for first. */
  method FetchContent(v: Vault, record: Record, wire: Wire, dest: DestFile, partial: Option<Partial>, start: nat,
                      reporter: Reporter, ghost objectOf: string -> seq<Byte>, ghost was: Option<Try>,
                      ghost run: Origin)
    returns (r: Fetched, kept: Option<Partial>, ghost file: Option<Partial>)
    requires run.from <= |wire.log|
    requires Carries(v, wire, dest, reporter.doneBytes, partial, start, objectOf, was, run)
    modifies wire, dest, reporter, if partial.Some? then {partial.value.writer} else {}
    ensures |old(wire.log)| < |wire.log| && old(wire.log) == wire.log[..|old(wire.log)|]
    ensures var t := Try(Ok(record), r, |old(wire.log)|, |wire.log|);
            && Carries(v, wire, dest, reporter.doneBytes, kept, start, objectOf, Some(t), run)
            && Streams(v, wire.log, t, run) && Follows(v, old(wire.log), wire.log[t.from], record, was, run)
    ensures kept.Some? ==>
              fresh(kept.value.writer) || (partial.Some? && kept.value.writer == partial.value.writer)
    ensures reporter.totalBytes ==
              if old(reporter.totalBytes).None? then Some(record.bytes) else old(reporter.totalBytes)
    ensures Delivered(v, wire.log, dest, reporter.doneBytes, start, objectOf, r, file, run)
  {
    var outcome;
    outcome, kept := Stream(v, record, wire, dest, partial, start, reporter, objectOf, was, run);
    file := Outgoing(Some(outcome), kept);
    match outcome
    case Gave(e) =>
      r := Err(match e case HttpFailed(http) => Refusal(http) case IoFailed(io) => Io(io));
    case Done(done) =>
      if done.writer.written < record.bytes {
        kept := Some(done);
        r := Err(Io(IoError(false)));
      } else {
        kept := None;
        var actual := v.sha(done.writer.hashed);
        if actual == record.sha256 {
          r := Ok(record);
        } else if done.resumedAt.Some? {
          r := Err(ResumedDrift(done.resumedAt.value, record.sha256, actual));
        } else {
          r := Err(Drift(record.sha256, actual));
        }
      }
  }

  /** What a run's result says of the bytes its exchanges made: of `Ok`, that the record last read, which
    * agrees with the plan, pins them; of a drift, that they came in one body and are not the pinned ones. */
  ghost predicate Concludes(v: Vault, pinned: Option<string>, log: seq<Exchange>, bytes: seq<Byte>, trace: seq<Try>)
    requires trace != []
  {
    match trace[|trace| - 1].outcome
    case Ok(record) =>
      && v.records(|trace| - 1) == Recorded(record) && (pinned.Some? ==> record.sha256 == pinned.value)
      && Verified(v, record, bytes)
    case Err(error) => error.Drift? ==> FromOneBody(log, bytes) && v.sha(bytes) != error.pin
  }

  lemma RunConcludes(v: Vault, pinned: Option<string>, log: seq<Exchange>, trace: seq<Try>, run: Origin)
    requires IsTrace(v, pinned, log, trace, run) && trace != []
    ensures Concludes(v, pinned, log, ShapeAt(run, log).bytes, trace)
  {
    var t := trace[|trace| - 1];
    if t.read.Ok? && log[|log| - 1].reply.Answered? {
      var was, x := ShapeAt(run, log[..|log| - 1]), log[|log| - 1];
      assert ShapeAt(run, log) == ShapeAfter(was, x);
      if t.outcome.Err? && t.outcome.error.Drift? && Starts(x) {
        CopyIsReading(x.reply.body.events, Rest(was.script));
      }
    }
  }

  /** Where a run stands between its tries. */
  ghost predicate Going(v: Vault, pinned: Option<string>, wire: Wire, dest: DestFile, doneBytes: nat,
                        partial: Option<Partial>, start: nat, objectOf: string -> seq<Byte>, trace: seq<Try>,
                        run: Origin)
    reads wire, dest, if partial.Some? then {partial.value.writer, partial.value.writer.inner} else {}
  {
    && IsTrace(v, pinned, wire.log, trace, run)
    && Carries(v, wire, dest, doneBytes, partial, start, objectOf, LastStream(trace), run)
  }

  /** The run is not over: its last try failed in a way that may pass. */
  predicate GoesOn(trace: seq<Try>) {
    trace != [] ==> trace[|trace| - 1].outcome.Err? && Transient(trace[|trace| - 1].outcome.error)
  }

  /** One attempt of the whole fetch, the record included. */
  method FetchOnce(v: Vault, pinned: Option<string>, wire: Wire, dest: DestFile, partial: Option<Partial>, start: nat,
                   reporter: Reporter, ghost objectOf: string -> seq<Byte>, tries: nat, ghost trace: seq<Try>,
                   ghost run: Origin)
    returns (r: Fetched, kept: Option<Partial>, ghost more: seq<Try>, ghost file: Option<Partial>)
    requires Going(v, pinned, wire, dest, reporter.doneBytes, partial, start, objectOf, trace, run)
    requires GoesOn(trace) && |trace| == tries
    modifies wire, dest, reporter, if partial.Some? then {partial.value.writer} else {}
    ensures Going(v, pinned, wire, dest, reporter.doneBytes, kept, start, objectOf, more, run)
    ensures |more| == tries + 1 && more[..tries] == trace && more[tries].outcome == r
    ensures Delivered(v, wire.log, dest, reporter.doneBytes, start, objectOf, r, file, run)
    ensures old(wire.log) <= wire.log
    ensures kept.Some? ==>
              fresh(kept.value.writer) || (partial.Some? && kept.value.writer == partial.value.writer)
  {
    r := ReadRecord(v, tries, pinned);
    kept, file := partial, None;
    ghost var read := r;
    if r.Ok? {
      r, kept, file :=
        FetchContent(v, r.record, wire, dest, partial, start, reporter, objectOf, LastStream(trace), run);
    }
    ghost var t := Try(read, r, |old(wire.log)|, |wire.log|);
    more := trace + [t];
    assert wire.log[..t.from] == old(wire.log);
    TryAdds(v, pinned, wire.log, trace, t, run);
  }

  lemma RunBegins(v: Vault, pinned: Option<string>, wire: Wire, dest: DestFile, start: nat,
                  objectOf: string -> seq<Byte>, run: Origin)
    requires wire.Valid() && Disciplined(wire.log) && run == Origin(|wire.log|, dest.bytes, dest.script)
    ensures Going(v, pinned, wire, dest, start, None, start, objectOf, [], run)
  {
  }

  /** The retry loop. */
  method Retry(v: Vault, attempts: nat, pinned: Option<string>, wire: Wire, dest: DestFile, reporter: Reporter,
               ghost objectOf: string -> seq<Byte>, ghost run: Origin)
    returns (r: Fetched, tries: nat, ghost trace: seq<Try>, ghost file: Option<Partial>, ghost left: Option<Partial>)
    requires wire.Valid() && Disciplined(wire.log) && run == Origin(|wire.log|, dest.bytes, dest.script)
    modifies wire, dest, reporter
    ensures 0 < tries == |trace| <= Max(1, attempts) && trace[tries - 1].outcome == r
    ensures Going(v, pinned, wire, dest, reporter.doneBytes, left, old(reporter.doneBytes), objectOf, trace, run)
    ensures Delivered(v, wire.log, dest, reporter.doneBytes, old(reporter.doneBytes), objectOf, r, file, run)
    ensures old(wire.log) <= wire.log
    ensures r.Err? && Transient(r.error) ==> tries >= attempts
  {
    var start := reporter.doneBytes;
    var partial: Option<Partial>, again := None, true;
    r, tries, trace, file := Err(Unregistered), 0, [], None;
    RunBegins(v, pinned, wire, dest, start, objectOf, run);
    while again
      invariant |trace| == tries <= Max(1, attempts) && (again ==> tries < Max(1, attempts) && GoesOn(trace))
      invariant Going(v, pinned, wire, dest, reporter.doneBytes, partial, start, objectOf, trace, run)
      invariant !again ==>
                  && 0 < tries && trace[tries - 1].outcome == r && (r.Err? && Transient(r.error) ==> tries >= attempts)
                  && Delivered(v, wire.log, dest, reporter.doneBytes, start, objectOf, r, file, run)
      invariant partial.Some? ==> fresh(partial.value.writer)
      invariant old(wire.log) <= wire.log
      decreases again, Max(1, attempts) - tries
    {
      r, partial, trace, file :=
        FetchOnce(v, pinned, wire, dest, partial, start, reporter, objectOf, tries, trace, run);
      tries := tries + 1;
      again := r.Err? && Transient(r.error) && tries < attempts;
    }
    left := partial;
  }

  /** Fetch the object into `dest`. Whatever the server sends, success means the bytes on disk hash
    * to the pin of the record just read, which is the plan's own pin if it has one. Over the whole
    * run no judged range is asked for again, the request after a resumed drift has no range, and a
    * range that failed unjudged is asked for again. */
  method FetchToFile(v: Vault, registered: bool, attempts: nat, pinned: Option<string>, wire: Wire, dest: DestFile,
                     reporter: Reporter, ghost objectOf: string -> seq<Byte>)
    returns (r: Fetched, tries: nat, ghost trace: seq<Try>, ghost file: Option<Partial>)
    requires wire.Valid() && Disciplined(wire.log)
    modifies wire, dest, reporter
    ensures !registered ==> r == Err(Unregistered) && tries == 0 && wire.log == old(wire.log)
    ensures |trace| == tries <= Max(1, attempts)
    ensures wire.Valid() && Disciplined(wire.log) && old(wire.log) <= wire.log
    ensures var run := Origin(|old(wire.log)|, old(dest.bytes), old(dest.script));
            && IsTrace(v, pinned, wire.log, trace, run)
            && dest.bytes == ShapeAt(run, wire.log).bytes && dest.script == ShapeAt(run, wire.log).script
            && Delivered(v, wire.log, dest, reporter.doneBytes, old(reporter.doneBytes), objectOf, r, file, run)
    ensures registered ==>
              tries > 0 && trace[tries - 1].outcome == r && Concludes(v, pinned, wire.log, dest.bytes, trace)
    ensures StartsAfresh(wire.log, trace) && KeepsUnanswered(v, wire.log, trace, |old(wire.log)|)
    ensures r.Ok? && old(Gentle(dest.script)) ==>
              reporter.doneBytes == old(reporter.doneBytes) + |dest.bytes|
    ensures r.Err? && Transient(r.error) ==> tries >= attempts
  {
    ghost var run := Origin(|wire.log|, dest.bytes, dest.script);
    if !registered {
      return Err(Unregistered), 0, [], None;
    }
    ghost var left;
    r, tries, trace, file, left := Retry(v, attempts, pinned, wire, dest, reporter, objectOf, run);
    RunRestarts(v, pinned, wire.log, trace, run);
    RunConcludes(v, pinned, wire.log, trace, run);
  }
}
