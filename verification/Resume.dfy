/** One attempt at a download over range requests (sections 13.1.5, 14.2 and 14.4 of RFC 9110): which
  * file each body goes to, and what is left when the attempt ends. The server is adversarial: every
  * reply is arbitrary, so whatever holds here holds for any sequence of breaks, short ranges, refusals
  * and replaced objects. */
module Resume {
  import opened Prelude
  import opened Digest
  import opened Progress

  /** The first and last byte of a `Content-Range`, and the total if given; `ByteRange` is not empty. */
  datatype ContentRange = ContentRange(first: nat, last: nat, total: Option<nat>)

  type ByteRange = r: ContentRange | r.first <= r.last witness ContentRange(0, 0, None)

  /** A response: its status, its `ETag` if strong, its range, and its body. */
  datatype Body = Body(status: nat, etag: Option<string>, range: Option<ByteRange>, events: seq<ReadEvent>)

  datatype HttpError = HttpError(status: Option<nat>, transient: bool)

  datatype Reply = Answered(body: Body) | Failed(error: HttpError)

  /** The tag and the size a file goes by. */
  datatype Expect = Expect(etag: Option<string>, total: Option<nat>)

  datatype ResumePoint = ResumePoint(offset: nat, etag: string, total: Option<nat>)

  /** A file in the making. The writer object is its identity: a restart makes a new one. */
  datatype Partial = Partial(writer: HashingWriter, expected: Expect, resumedAt: Option<nat>)

  datatype AttemptError = HttpFailed(http: HttpError) | IoFailed(io: IoError)

  datatype Outcome = Done(file: Partial) | Gave(error: AttemptError)

  function RangeRefused(error: HttpError): bool {
    error.status == Some(416)
  }

  /** Where the file can go on from; an empty file, or one without a tag, can only start over. */
  function ResumePointOf(file: Partial): Option<ResumePoint>
    reads file.writer
  {
    if file.writer.written == 0 || file.expected.etag.None? then None
    else Some(ResumePoint(file.writer.written, file.expected.etag.value, file.expected.total))
  }

  predicate ContinuedBy(point: ResumePoint, body: Body) {
    && body.status == 206
    && body.etag == Some(point.etag)
    && body.range.Some?
    && body.range.value.first == point.offset
    && (point.total.None? || body.range.value.total == point.total)
  }

  function Resumed(file: Partial, offset: nat, body: Body): Partial {
    file.(resumedAt := if file.resumedAt.Some? then file.resumedAt else Some(offset),
          expected := file.expected.(total :=
                    if file.expected.total.Some? then file.expected.total
                    else if body.range.Some? then body.range.value.total else None))
  }

  // ---------------------------------------------------------------- the wire

  /** One request and its reply; `file` is the file a range request continues, and `expected` what
    * a file started by the reply's body would expect of a later range. */
  datatype Exchange = Exchange(request: Option<ResumePoint>, file: HashingWriter?, reply: Reply, expected: Expect)

  /** The server answered a range request with something other than that range. */
  predicate Judged(x: Exchange) {
    x.request.Some? &&
    match x.reply
    case Answered(body) => !ContinuedBy(x.request.value, body)
    case Failed(error) => RangeRefused(error)
  }

  /** The files the server judged a range of. */
  ghost function JudgedFiles(log: seq<Exchange>): set<HashingWriter?> {
    if log == [] then {}
    else
      var x := log[|log| - 1];
      JudgedFiles(log[..|log| - 1]) + (if Judged(x) then {x.file} else {})
  }

  /** A file whose range the server judged is never asked for again. */
  ghost predicate Disciplined(log: seq<Exchange>) {
    log == [] ||
    var sooner, x := log[..|log| - 1], log[|log| - 1];
    Disciplined(sooner) && (x.request.Some? ==> x.file !in JudgedFiles(sooner))
  }

  /** `file` has not been judged. */
  ghost predicate Unjudged(log: seq<Exchange>, file: HashingWriter) {
    file !in JudgedFiles(log)
  }

  lemma {:induction false} JudgedWasAsked(log: seq<Exchange>, file: HashingWriter?)
    requires file in JudgedFiles(log)
    ensures exists i :: 0 <= i < |log| && log[i].file == file
  {
    var sooner := log[..|log| - 1];
    if file in JudgedFiles(sooner) {
      JudgedWasAsked(sooner, file);
      var i :| 0 <= i < |sooner| && sooner[i].file == file;
      assert log[i].file == file;
    }
  }

  lemma {:induction false} JudgedGrows(log: seq<Exchange>, n: nat)
    requires n <= |log|
    ensures JudgedFiles(log[..n]) <= JudgedFiles(log)
    decreases |log|
  {
    if n < |log| {
      JudgedGrows(log[..|log| - 1], n);
      assert log[..|log| - 1][..n] == log[..n];
    } else {
      assert log[..n] == log;
    }
  }

  /** What the discipline says of any two requests. */
  lemma {:induction false} NeverAgain(log: seq<Exchange>, i: nat, j: nat)
    requires Disciplined(log) && i < j < |log|
    requires Judged(log[i]) && log[j].request.Some?
    ensures log[j].file != log[i].file
    decreases |log|
  {
    var sooner := log[..|log| - 1];
    if j < |log| - 1 {
      NeverAgain(sooner, i, j);
    } else {
      JudgedGrows(sooner, i + 1);
      assert sooner[..i + 1][..i] == sooner[..i] && sooner[..i + 1][i] == log[i];
      assert log[i].file in JudgedFiles(sooner[..i + 1]);
    }
  }

  /** The body continues the file it was asked for. */
  predicate Continues(x: Exchange) {
    x.request.Some? && x.reply.Answered? && ContinuedBy(x.request.value, x.reply.body)
  }

  /** The body starts a file. */
  predicate Starts(x: Exchange) {
    x.reply.Answered? && (x.request.None? || x.reply.body.status == 200)
  }

  /** A range request the server did not judge. */
  predicate Unanswered(x: Exchange) {
    x.request.Some? && x.reply.Failed? && !RangeRefused(x.reply.error)
  }

  /** A range the server judged with a body or an error that is not used; a plain request follows. */
  predicate Dropped(x: Exchange) {
    x.request.Some? && !Continues(x) && !Starts(x) && !Unanswered(x)
  }

  /** From exchange `from`, an attempt goes on only to ask without a range, or for the next one. */
  ghost predicate Inner(log: seq<Exchange>, from: nat) {
    |log| <= from + 1 ||
    (Inner(log[..|log| - 1], from) && (Dropped(log[|log| - 2]) || Continues(log[|log| - 2])))
  }

  lemma {:induction false} InnerAt(log: seq<Exchange>, from: nat, k: nat)
    requires Inner(log, from) && from <= k < |log| - 1
    ensures Dropped(log[k]) || Continues(log[k])
  {
    if k < |log| - 2 {
      InnerAt(log[..|log| - 1], from, k);
    }
  }

  /** The file as the exchanges and the disk make it: its bytes, where its first range began, and what is
    * left of the disk's script. */
  datatype Shape = Shape(bytes: seq<Byte>, resumed: Option<nat>, script: seq<WriteOutcome>)

  /** The body starts a file that the disk will not create. */
  predicate Uncreated(s: Shape, x: Exchange) {
    Starts(x) && CreateRefused(s.script).Some?
  }

  function ShapeAfter(s: Shape, x: Exchange): Shape {
    if Continues(x) then
      var c := CopyOf(x.reply.body.events, s.script);
      Shape(s.bytes + c.bytes, if s.resumed.Some? then s.resumed else Some(x.request.value.offset), c.script)
    else if Uncreated(s, x) then Shape(s.bytes, None, Rest(s.script))
    else if Starts(x) then
      var c := CopyOf(x.reply.body.events, Rest(s.script));
      Shape(c.bytes, None, c.script)
    else s
  }

  /** How writing the exchange's body to its file fails, if it does. */
  function FailureOf(s: Shape, x: Exchange): Option<IoError> {
    if Continues(x) then CopyOf(x.reply.body.events, s.script).failed
    else if Uncreated(s, x) then CreateRefused(s.script)
    else if Starts(x) then CopyOf(x.reply.body.events, Rest(s.script)).failed
    else None
  }

  /** A range that was sent to its end and leaves a file of `n` bytes short of its total. */
  predicate ShortRange(x: Exchange, n: nat, total: Option<nat>) {
    Continues(x) && n == x.reply.body.range.value.last + 1 && total.Some? && n < total.value
  }

  /** The shape after the exchanges from `from` on, starting from `s`. */
  function ShapeOf(s: Shape, log: seq<Exchange>, from: nat): Shape {
    if |log| <= from then s else ShapeAfter(ShapeOf(s, log[..|log| - 1], from), log[|log| - 1])
  }

  lemma {:induction false} ShapeJoins(s: Shape, before: seq<Exchange>, log: seq<Exchange>, from: nat)
    requires from <= |before| <= |log| && before == log[..|before|]
    ensures ShapeOf(ShapeOf(s, before, from), log, |before|) == ShapeOf(s, log, from)
    decreases |log|
  {
    if |before| < |log| {
      assert log[..|log| - 1][..|before|] == before;
      ShapeJoins(s, before, log[..|log| - 1], from);
    } else {
      assert log == before;
    }
  }

  function ShapeNow(dest: DestFile, partial: Option<Partial>): Shape
    reads dest
  {
    Shape(dest.bytes, if partial.Some? then partial.value.resumedAt else None, dest.script)
  }

  ghost function Expected(reply: Reply, expectOf: Body -> Expect): Expect {
    if reply.Answered? then expectOf(reply.body) else Expect(None, None)
  }

  /** Each reply is the server's next, and a range request names its file. */
  ghost predicate Replied(log: seq<Exchange>, replies: nat -> Reply) {
    log == [] ||
    var n := |log| - 1;
    Replied(log[..n], replies) && log[n].reply == replies(n) && (log[n].request.Some? <==> log[n].file != null)
  }

  class Wire {
    const replies: nat -> Reply
    var sent: nat
    ghost var log: seq<Exchange>

    constructor (replies: nat -> Reply)
      ensures this.replies == replies && sent == 0 && log == []
    {
      this.replies := replies;
      sent := 0;
      log := [];
    }

    ghost predicate Valid()
      reads this
    {
      sent == |log| && Replied(log, replies)
    }

    method Get(request: Option<ResumePoint>, ghost file: HashingWriter?, ghost expectOf: Body -> Expect)
      returns (reply: Reply)
      requires Valid() && (request.Some? <==> file != null)
      modifies this
      ensures Valid()
      ensures log == old(log) + [Exchange(request, file, reply, Expected(reply, expectOf))]
      ensures log[..|log| - 1] == old(log)
    {
      reply := replies(sent);
      sent := sent + 1;
      ghost var sooner := log;
      log := log + [Exchange(request, file, reply, Expected(reply, expectOf))];
      assert log[..|log| - 1] == sooner;
    }
  }

  // ---------------------------------------------------------------- honest servers

  /** The server's side of resuming: a strong `ETag` names one object, a range carries that
    * object's bytes from the range's first byte, any other body carries it from the start, and
    * a file expects the `ETag` of the body that starts it. Of a body that starts nothing, such as a
    * range of some other object, nothing is asked but that. */
  ghost predicate Honest(objectOf: string -> seq<Byte>, x: Exchange) {
    x.reply.Answered? ==>
      var body := x.reply.body;
      && (body.etag.Some? && !(x.request.Some? && body.status == 206) ==>
            Payload(body.events) <= objectOf(body.etag.value))
      && (x.request.Some? && body.status == 206 && body.etag.Some? && body.range.Some? ==>
            && body.range.value.first <= |objectOf(body.etag.value)|
            && Payload(body.events) <= objectOf(body.etag.value)[body.range.value.first..])
      && ((x.request.None? || body.status == 200) && x.expected.etag.Some? ==> x.expected.etag == body.etag)
  }

  ghost predicate HonestLog(objectOf: string -> seq<Byte>, log: seq<Exchange>) {
    log == [] || (HonestLog(objectOf, log[..|log| - 1]) && Honest(objectOf, log[|log| - 1]))
  }

  /** The file is a prefix of the one object its `ETag` names. */
  ghost predicate IsPrefix(objectOf: string -> seq<Byte>, file: Partial)
    reads file.writer.inner
  {
    file.expected.etag.Some? ==> file.writer.inner.bytes <= objectOf(file.expected.etag.value)
  }

  // ---------------------------------------------------------------- one attempt

  /** A kept or returned file: its digest and count follow the disk, and progress shows the
    * starting mark plus its bytes, short of those in writes that failed. */
  ghost predicate Sound(file: Partial, dest: DestFile, start: nat, doneBytes: nat)
    reads file.writer, file.writer.inner
  {
    && file.writer.inner == dest
    && file.writer.Valid()
    && doneBytes + file.writer.uncounted == start + |file.writer.inner.bytes|
  }

  datatype Opened = Opened(body: Body, continued: Option<Partial>) | NotOpened(error: HttpError)

  function PointOf(partial: Option<Partial>): Option<ResumePoint>
    reads if partial.Some? then {partial.value.writer} else {}
  {
    if partial.Some? then ResumePointOf(partial.value) else None
  }

  /** `x` asks for `point`, on behalf of `partial`, or for all of the object. */
  ghost predicate AsksFor(x: Exchange, point: Option<ResumePoint>, partial: Option<Partial>) {
    x.request == point && (point.Some? ==> partial.Some? && x.file == partial.value.writer)
  }

  /** What is left of a file after a request that failed: the file, if the server did not judge it. */
  ghost predicate KeptAfter(x: Exchange, kept: Option<Partial>)
    reads if kept.Some? then {kept.value.writer} else {}
  {
    if Unanswered(x) then kept.Some? && x.file == kept.value.writer && x.request == PointOf(kept) else kept.None?
  }

  /** One request, or two: after a range that was judged, a plain one. Which file goes on is settled by
    * the last reply, and a range that failed unjudged leaves the file where it was. */
  method Open(wire: Wire, partial: Option<Partial>, ghost expectOf: Body -> Expect)
    returns (r: Opened, kept: Option<Partial>)
    requires wire.Valid()
    requires partial.Some? ==> Unjudged(wire.log, partial.value.writer)
    requires Disciplined(wire.log)
    modifies wire
    ensures wire.Valid() && Disciplined(wire.log)
    ensures |old(wire.log)| < |wire.log| && old(wire.log) == wire.log[..|old(wire.log)|]
    ensures AsksFor(wire.log[|old(wire.log)|], PointOf(partial), partial)
    ensures |wire.log| == |old(wire.log)| + 1 ||
            (|wire.log| == |old(wire.log)| + 2 && Dropped(wire.log[|old(wire.log)|]))
    ensures var x := wire.log[|wire.log| - 1];
            match r
            case Opened(body, continued) =>
              && kept.None? && x.reply == Answered(body) && x.expected == expectOf(body)
              && (if continued.None? then Starts(x)
                  else
                    && partial.Some? && Continues(x) && x.file == partial.value.writer
                    && x.request == PointOf(partial)
                    && continued.value == Resumed(partial.value, partial.value.writer.written, body)
                    && Unjudged(wire.log, partial.value.writer))
            case NotOpened(error) =>
              && x.reply == Failed(error) && KeptAfter(x, kept)
              && (kept.Some? ==> kept == partial && Unjudged(wire.log, partial.value.writer))
  {
    kept := partial;
    var point := PointOf(partial);
    if point.None? {
      var reply := wire.Get(None, null, expectOf);
      kept := None;
      r := match reply case Answered(body) => Opened(body, None) case Failed(error) => NotOpened(error);
      return;
    }
    var reply := wire.Get(point, partial.value.writer, expectOf);
    match reply {
      case Answered(body) =>
        if ContinuedBy(point.value, body) {
          kept := None;
          return Opened(body, Some(Resumed(partial.value, point.value.offset, body))), kept;
        }
        if body.status == 200 {
          kept := None;
          return Opened(body, None), kept;
        }
      case Failed(error) =>
        if !RangeRefused(error) {
          return NotOpened(error), kept;
        }
    }
    kept := None;
    reply := wire.Get(None, null, expectOf);
    r := match reply case Answered(body) => Opened(body, None) case Failed(error) => NotOpened(error);
  }

  /** The file ends where the range did and is below its total. */
  predicate StoppedShort(file: Partial, pieceEnd: Option<nat>)
    reads file.writer
  {
    && pieceEnd.Some? && file.writer.written == pieceEnd.value + 1
    && file.expected.total.Some? && file.writer.written < file.expected.total.value
  }

  datatype Started = Started(file: Partial) | Left(error: IoError)

  /** An empty file under a new writer, or the disk's refusal; either way progress is at the mark. */
  method Start(dest: DestFile, start: nat, reporter: Reporter, expected: Expect) returns (r: Started)
    requires start <= reporter.doneBytes
    modifies dest, reporter`doneBytes
    ensures reporter.doneBytes == start
    ensures dest.script == Rest(old(dest.script))
    ensures match CreateRefused(old(dest.script))
            case Some(error) => r == Left(error) && dest.bytes == old(dest.bytes)
            case None =>
              && r.Started? && fresh(r.file.writer)
              && r.file.expected == expected && r.file.resumedAt.None?
              && Sound(r.file, dest, start, reporter.doneBytes)
              && r.file.writer.uncounted == 0 && dest.bytes == []
  {
    reporter.Rewind(start);
    var refused := dest.Create();
    if refused.Some? {
      return Left(refused.value);
    }
    var writer := new HashingWriter(dest);
    r := Started(Partial(writer, expected, None));
  }

  /** Copy the body into the file. From an honest exchange a file that is a prefix of its object
    * stays one, whether the body starts it or continues it. */
  method Pour(file: Partial, reporter: Reporter, body: Body, ghost x: Exchange, ghost objectOf: string -> seq<Byte>)
    returns (failed: Option<IoError>)
    requires file.writer.Valid() && x.reply == Answered(body)
    requires (file.writer.inner.bytes == [] && file.expected == x.expected && Starts(x))
             || ContinuesAt(x, file.writer.inner.bytes, file.expected)
    modifies file.writer, file.writer.inner, reporter`doneBytes
    ensures file.writer.Valid() && old(reporter.doneBytes) <= reporter.doneBytes
    ensures var c := CopyOf(body.events, old(file.writer.inner.script));
            && failed == c.failed && file.writer.inner.script == c.script
            && file.writer.inner.bytes == old(file.writer.inner.bytes) + c.bytes
            && file.writer.uncounted == old(file.writer.uncounted) + c.uncounted
            && reporter.doneBytes + c.uncounted == old(reporter.doneBytes) + |c.bytes|
    ensures failed.None? ==> file.writer.inner.bytes == old(file.writer.inner.bytes) + Landed(body.events)
    ensures old(Gentle(file.writer.inner.script)) ==>
              Gentle(file.writer.inner.script) && file.writer.uncounted == old(file.writer.uncounted)
    ensures old(IsPrefix(objectOf, file)) && Honest(objectOf, x) ==> IsPrefix(objectOf, file)
  {
    CopyIsReading(body.events, file.writer.inner.script);
    LandedIsPrefix(body.events);
    failed := CopyReporting(body.events, file.writer, reporter);
  }

  /** The exchange is a matching range for a file of these bytes. */
  ghost predicate ContinuesAt(x: Exchange, bytes: seq<Byte>, expected: Expect) {
    && x.request.Some? && x.reply.Answered? && x.reply.body.status == 206
    && x.reply.body.range.Some? && x.reply.body.range.value.first == |bytes|
    && expected.etag.Some? && x.reply.body.etag == expected.etag
  }

  /** The file that leaves a round: returned, or kept for the next. */
  ghost function Outgoing(r: Option<Outcome>, kept: Option<Partial>): Option<Partial> {
    if r.Some? && r.value.Done? then Some(r.value.file) else kept
  }

  /** The bytes are what reading the last exchange's body gave, and that body started the file. */
  ghost predicate FromOneBody(log: seq<Exchange>, bytes: seq<Byte>) {
    log != [] && Starts(log[|log| - 1]) && bytes == Landed(log[|log| - 1].reply.body.events)
  }

  ghost predicate AlwaysExpects(expectOf: Body -> Expect, expected: Expect) {
    expected.total.Some? && forall body :: expectOf(body) == expected
  }

  /** The file a body goes to: the one it continues, or a new one. */
  method Take(dest: DestFile, continued: Option<Partial>, start: nat, reporter: Reporter, expected: Expect)
    returns (r: Started)
    requires start <= reporter.doneBytes
    requires continued.Some? ==> Sound(continued.value, dest, start, reporter.doneBytes)
    modifies dest, reporter`doneBytes
    ensures start <= reporter.doneBytes
    ensures r.Started? ==> Sound(r.file, dest, start, reporter.doneBytes)
    ensures continued.Some? ==>
              && r == Started(continued.value) && reporter.doneBytes == old(reporter.doneBytes)
              && dest.bytes == old(dest.bytes) && dest.script == old(dest.script)
    ensures continued.None? ==>
              && dest.script == Rest(old(dest.script))
              && match CreateRefused(old(dest.script))
                 case Some(error) => r == Left(error) && dest.bytes == old(dest.bytes)
                 case None =>
                   && r.Started? && fresh(r.file.writer) && r.file.expected == expected && r.file.resumedAt.None?
                   && r.file.writer.uncounted == 0 && dest.bytes == []
  {
    if continued.Some? {
      return Started(continued.value);
    }
    r := Start(dest, start, reporter, expected);
  }

  /** How a round ends, from its last exchange and the shape before it: an error of the server's or the
    * disk's, another round after a short range, or the file. */
  ghost predicate Ends(s: Shape, x: Exchange, r: Option<Outcome>, kept: Option<Partial>)
    reads if kept.Some? then {kept.value.writer} else {}
  {
    match x.reply
    case Failed(error) => r == Some(Gave(HttpFailed(error))) && KeptAfter(x, kept)
    case Answered(_) =>
      && (Starts(x) || Continues(x))
      && var failure := FailureOf(s, x);
      if failure.Some? then r == Some(Gave(IoFailed(failure.value))) && (kept.Some? <==> !Uncreated(s, x))
      else
        var file := Outgoing(r, kept);
        && file.Some? && (r.None? || r.value.Done?)
        && (r.None? <==> ShortRange(x, |ShapeAfter(s, x).bytes|, file.value.expected.total))
  }

  /** The file on disk, and the one in hand if any, have this shape. */
  ghost predicate HasShape(file: Option<Partial>, dest: DestFile, shape: Shape)
    reads dest
  {
    dest.bytes == shape.bytes && dest.script == shape.script && (file.Some? ==> file.value.resumedAt == shape.resumed)
  }

  /** On a disk that takes every write, progress misses nothing. */
  ghost predicate StaysGentle(file: Option<Partial>, dest: DestFile)
    reads dest, if file.Some? then {file.value.writer} else {}
  {
    Gentle(dest.script) && (file.Some? ==> file.value.writer.uncounted == 0)
  }

  /** A round's exchanges after the attempt's earlier ones. */
  lemma MoreExchanges(s: Shape, before: seq<Exchange>, log: seq<Exchange>, from: nat)
    requires from <= |before| < |log| && before == log[..|before|]
    requires |log| == |before| + 1 || (|log| == |before| + 2 && Dropped(log[|before|]))
    requires Inner(before, from) && (from < |before| ==> Continues(before[|before| - 1]))
    ensures Inner(log, from)
    ensures ShapeOf(s, log, from) == ShapeAfter(ShapeOf(s, before, from), log[|log| - 1])
    ensures ShapeOf(s, log[..|log| - 1], from) == ShapeOf(s, before, from)
  {
    var sooner := log[..|log| - 1];
    if |log| == |before| + 2 {
      assert sooner[..|sooner| - 1] == before;
    }
  }

  lemma {:induction false} HonestlyBefore(objectOf: string -> seq<Byte>, before: seq<Exchange>, log: seq<Exchange>)
    requires |before| <= |log| && before == log[..|before|]
    ensures HonestLog(objectOf, log) ==> HonestLog(objectOf, before)
    decreases |log|
  {
    if |before| < |log| {
      assert log[..|log| - 1][..|before|] == before;
      HonestlyBefore(objectOf, before, log[..|log| - 1]);
    } else {
      assert before == log;
    }
  }

  /** What an attempt began with: where the log stood, whether the disk takes every write, the file's
    * shape, whether the file was a prefix of its object, and what every file expects, if that is fixed. */
  datatype Begun = Begun(from: nat, gentle: bool, shape: Shape, prefix: bool, fixed: Option<Expect>)

  ghost function Begin(wire: Wire, dest: DestFile, partial: Option<Partial>, objectOf: string -> seq<Byte>,
                       expectOf: Body -> Expect, fixed: Expect): Begun
    reads wire, dest, if partial.Some? then {partial.value.writer, partial.value.writer.inner} else {}
  {
    Begun(|wire.log|, StaysGentle(partial, dest),
          ShapeNow(dest, partial), partial.Some? ==> IsPrefix(objectOf, partial.value),
          if AlwaysExpects(expectOf, fixed) && (partial.Some? ==> partial.value.expected == fixed)
          then Some(fixed) else None)
  }

  /** What an attempt keeps of its log. */
  ghost predicate Logged(wire: Wire, start: nat, doneBytes: nat, b: Begun)
    reads wire
  {
    && wire.Valid() && Disciplined(wire.log) && start <= doneBytes
    && b.from <= |wire.log| && Inner(wire.log, b.from)
  }

  /** What it keeps of a file it has. */
  ghost predicate FileOk(log: seq<Exchange>, file: Partial, dest: DestFile, start: nat, doneBytes: nat, b: Begun,
                         objectOf: string -> seq<Byte>)
    reads file.writer, file.writer.inner
  {
    && Sound(file, dest, start, doneBytes)
    && Unjudged(log, file.writer)
    && (b.fixed.Some? ==> file.expected == b.fixed.value)
    && (b.prefix && HonestLog(objectOf, log) ==> IsPrefix(objectOf, file))
  }

  /** What it keeps of both, and of the disk. */
  ghost predicate Keeps(wire: Wire, dest: DestFile, file: Option<Partial>, start: nat, doneBytes: nat,
                        b: Begun, objectOf: string -> seq<Byte>)
    reads wire, dest, if file.Some? then {file.value.writer, file.value.writer.inner} else {}
  {
    && Logged(wire, start, doneBytes, b)
    && (file.Some? ==> FileOk(wire.log, file.value, dest, start, doneBytes, b, objectOf))
    && HasShape(file, dest, ShapeOf(b.shape, wire.log, b.from))
    && (b.gentle ==> StaysGentle(file, dest))
  }

  /** How a round ended, as its last exchange and the disk tell. */
  ghost predicate Ended(log: seq<Exchange>, bytes: seq<Byte>, r: Option<Outcome>, kept: Option<Partial>, b: Begun)
    reads if kept.Some? then {kept.value.writer} else {}
  {
    && b.from < |log| && Ends(ShapeOf(b.shape, log[..|log| - 1], b.from), log[|log| - 1], r, kept)
    && (r.Some? && r.value.Done? && r.value.file.resumedAt.None? ==> FromOneBody(log, bytes))
    && (r.None? ==>
          && kept.Some? && kept.value.expected.total.Some?
          && kept.value.writer.written < kept.value.expected.total.value)
  }

  /** Write an answer's body to its file. `None` is a short range answer, whose file is in `kept`. */
  method Receive(dest: DestFile, continued: Option<Partial>, body: Body, start: nat, reporter: Reporter,
                 expected: Expect, ghost x: Exchange, ghost objectOf: string -> seq<Byte>)
    returns (r: Option<Outcome>, kept: Option<Partial>)
    requires start <= reporter.doneBytes
    requires x.reply == Answered(body) && x.expected == expected
    requires if continued.None? then Starts(x)
             else Continues(x) && Sound(continued.value, dest, start, reporter.doneBytes)
                  && ContinuesAt(x, dest.bytes, continued.value.expected)
    modifies dest, reporter`doneBytes, if continued.Some? then {continued.value.writer} else {}
    ensures start <= reporter.doneBytes
    ensures var file := Outgoing(r, kept);
            file.Some? ==>
              && Sound(file.value, dest, start, reporter.doneBytes)
              && (if continued.Some? then file == continued
                  else fresh(file.value.writer) && file.value.expected == expected && file.value.resumedAt.None?)
    ensures var s := Shape(old(dest.bytes), None, old(dest.script));
            && dest.bytes == ShapeAfter(s, x).bytes && dest.script == ShapeAfter(s, x).script
            && Ends(s, x, r, kept)
    ensures r.Some? && r.value.Done? && continued.None? ==> dest.bytes == Landed(body.events)
    ensures r.None? ==> old(continued.value.writer.written) < kept.value.writer.written
    ensures old(Gentle(dest.script)) && (continued.Some? ==> old(continued.value.writer.uncounted) == 0) ==>
              StaysGentle(Outgoing(r, kept), dest)
    ensures Honest(objectOf, x) && (continued.Some? ==> old(IsPrefix(objectOf, continued.value))) ==>
              (Outgoing(r, kept).Some? ==> IsPrefix(objectOf, Outgoing(r, kept).value))
  {
    var started := Take(dest, continued, start, reporter, expected);
    kept := None;
    if started.Left? {
      r := Some(Gave(IoFailed(started.error)));
      return;
    }
    var file := started.file;
    var pieceEnd := if continued.Some? && body.range.Some? then Some(body.range.value.last) else None;
    var failed := Pour(file, reporter, body, x, objectOf);
    if failed.Some? {
      kept := Some(file);
      r := Some(Gave(IoFailed(failed.value)));
    } else if StoppedShort(file, pieceEnd) {
      kept := Some(file);
      r := None;
    } else {
      r := Some(Done(file));
    }
  }

  /** An answer is open: `continued` is the file it continues, if any, and `shape` the file's before it. */
  ghost predicate Ready(wire: Wire, dest: DestFile, continued: Option<Partial>, body: Body, expected: Expect,
                        start: nat, doneBytes: nat, objectOf: string -> seq<Byte>, b: Begun, shape: Shape)
    reads wire, dest, if continued.Some? then {continued.value.writer, continued.value.writer.inner} else {}
  {
    && Logged(wire, start, doneBytes, b) && b.from < |wire.log|
    && dest.bytes == shape.bytes && dest.script == shape.script && (b.gentle ==> Gentle(dest.script))
    && shape == ShapeOf(b.shape, wire.log[..|wire.log| - 1], b.from)
    && (b.fixed.Some? ==> expected == b.fixed.value)
    && var x := wire.log[|wire.log| - 1];
    && x.reply == Answered(body) && x.expected == expected
    && ShapeOf(b.shape, wire.log, b.from) == ShapeAfter(shape, x)
    && if continued.None? then Starts(x)
       else
         && Continues(x) && ContinuesAt(x, dest.bytes, continued.value.expected)
         && FileOk(wire.log, continued.value, dest, start, doneBytes, b, objectOf)
         && continued.value.resumedAt.Some?
         && continued.value.resumedAt == ShapeAfter(shape, x).resumed
         && (b.gentle ==> continued.value.writer.uncounted == 0)
  }

  /** `Receive`, with what the attempt keeps. */
  method Settle(wire: Wire, dest: DestFile, continued: Option<Partial>, body: Body, start: nat, reporter: Reporter,
                expected: Expect, ghost objectOf: string -> seq<Byte>, ghost b: Begun, ghost shape: Shape)
    returns (r: Option<Outcome>, kept: Option<Partial>)
    requires Ready(wire, dest, continued, body, expected, start, reporter.doneBytes, objectOf, b, shape)
    modifies dest, reporter`doneBytes, if continued.Some? then {continued.value.writer} else {}
    ensures Keeps(wire, dest, Outgoing(r, kept), start, reporter.doneBytes, b, objectOf)
    ensures Ended(wire.log, dest.bytes, r, kept, b)
    ensures Outgoing(r, kept).Some? ==>
              if continued.Some? then Outgoing(r, kept) == continued else fresh(Outgoing(r, kept).value.writer)
    ensures r.None? ==> continued.Some? && old(continued.value.writer.written) < kept.value.writer.written
  {
    ghost var x := wire.log[|wire.log| - 1];
    r, kept := Receive(dest, continued, body, start, reporter, expected, x, objectOf);
    if continued.None? && Outgoing(r, kept).Some? {
      ghost var writer := Outgoing(r, kept).value.writer;
      if writer in JudgedFiles(wire.log) {
        JudgedWasAsked(wire.log, writer);
      }
    }
  }

  /** An answer to a request for the file, or for all of the object, is open. */
  lemma OpensReady(wire: Wire, dest: DestFile, partial: Option<Partial>, continued: Option<Partial>, body: Body,
                   expected: Expect, start: nat, doneBytes: nat, objectOf: string -> seq<Byte>, b: Begun, shape: Shape)
    requires Logged(wire, start, doneBytes, b) && b.from < |wire.log|
    requires HasShape(partial, dest, shape) && (b.gentle ==> StaysGentle(partial, dest))
    requires shape == ShapeOf(b.shape, wire.log[..|wire.log| - 1], b.from)
    requires b.fixed.Some? ==> expected == b.fixed.value && expected.total.Some?
    requires wire.log[|wire.log| - 1].reply == Answered(body) && wire.log[|wire.log| - 1].expected == expected
    requires continued.None? ==> Starts(wire.log[|wire.log| - 1])
    requires continued.Some? ==>
               && partial.Some? && Continues(wire.log[|wire.log| - 1])
               && wire.log[|wire.log| - 1].request == PointOf(partial)
               && continued.value == Resumed(partial.value, partial.value.writer.written, body)
               && FileOk(wire.log, partial.value, dest, start, doneBytes, b, objectOf)
    ensures Ready(wire, dest, continued, body, expected, start, doneBytes, objectOf, b, shape)
  {
    if continued.Some? {
      assert FileOk(wire.log, continued.value, dest, start, doneBytes, b, objectOf);
    }
  }

  /** A request that failed leaves the file, or none. */
  lemma FailsKept(wire: Wire, dest: DestFile, partial: Option<Partial>, kept: Option<Partial>, error: HttpError,
                  start: nat, doneBytes: nat, objectOf: string -> seq<Byte>, b: Begun)
    requires Logged(wire, start, doneBytes, b) && b.from < |wire.log|
    requires HasShape(partial, dest, ShapeOf(b.shape, wire.log[..|wire.log| - 1], b.from))
    requires b.gentle ==> StaysGentle(partial, dest)
    requires wire.log[|wire.log| - 1].reply == Failed(error) && KeptAfter(wire.log[|wire.log| - 1], kept)
    requires kept.Some? ==> kept == partial && FileOk(wire.log, kept.value, dest, start, doneBytes, b, objectOf)
    ensures Keeps(wire, dest, kept, start, doneBytes, b, objectOf)
    ensures Ended(wire.log, dest.bytes, Some(Gave(HttpFailed(error))), kept, b)
  {
  }

  /** `Open`, with what the attempt keeps. */
  method Ask(wire: Wire, ghost dest: DestFile, partial: Option<Partial>, ghost start: nat, ghost doneBytes: nat,
             ghost expectOf: Body -> Expect, ghost objectOf: string -> seq<Byte>, ghost b: Begun)
    returns (answer: Opened, kept: Option<Partial>)
    requires Keeps(wire, dest, partial, start, doneBytes, b, objectOf)
    requires b.from < |wire.log| ==> Continues(wire.log[|wire.log| - 1])
    requires b.fixed.Some? ==> AlwaysExpects(expectOf, b.fixed.value)
    modifies wire
    ensures Logged(wire, start, doneBytes, b)
    ensures |old(wire.log)| < |wire.log| && old(wire.log) == wire.log[..|old(wire.log)|]
    ensures AsksFor(wire.log[|old(wire.log)|], PointOf(partial), partial)
    ensures answer.NotOpened? ==>
              && (kept.Some? ==> kept == partial)
              && Keeps(wire, dest, kept, start, doneBytes, b, objectOf)
              && Ended(wire.log, dest.bytes, Some(Gave(HttpFailed(answer.error))), kept, b)
    ensures answer.Opened? ==>
              && (answer.continued.Some? ==>
                    && partial.Some?
                    && answer.continued.value == Resumed(partial.value, partial.value.writer.written, answer.body))
              && Ready(wire, dest, answer.continued, answer.body, expectOf(answer.body), start, doneBytes, objectOf, b,
                       old(ShapeOf(b.shape, wire.log, b.from)))
  {
    ghost var shape := ShapeOf(b.shape, wire.log, b.from);
    answer, kept := Open(wire, partial, expectOf);
    MoreExchanges(b.shape, old(wire.log), wire.log, b.from);
    HonestlyBefore(objectOf, old(wire.log), wire.log);
    assert partial.Some? && Unjudged(wire.log, partial.value.writer) ==>
             FileOk(wire.log, partial.value, dest, start, doneBytes, b, objectOf);
    if answer.Opened? {
      OpensReady(wire, dest, partial, answer.continued, answer.body, expectOf(answer.body), start, doneBytes,
                 objectOf, b, shape);
    } else {
      FailsKept(wire, dest, partial, kept, answer.error, start, doneBytes, objectOf, b);
    }
  }

  /** One request and its body. `None` is a short range answer, whose file is in `kept`. */
  method Round(wire: Wire, dest: DestFile, partial: Option<Partial>, start: nat, reporter: Reporter,
               expectOf: Body -> Expect, ghost objectOf: string -> seq<Byte>, ghost b: Begun)
    returns (r: Option<Outcome>, kept: Option<Partial>)
    requires Keeps(wire, dest, partial, start, reporter.doneBytes, b, objectOf)
    requires b.from < |wire.log| ==> Continues(wire.log[|wire.log| - 1])
    requires b.fixed.Some? ==> AlwaysExpects(expectOf, b.fixed.value)
    modifies wire, dest, reporter`doneBytes, if partial.Some? then {partial.value.writer} else {}
    ensures Keeps(wire, dest, Outgoing(r, kept), start, reporter.doneBytes, b, objectOf)
    ensures Ended(wire.log, dest.bytes, r, kept, b)
    ensures |old(wire.log)| < |wire.log| && old(wire.log) == wire.log[..|old(wire.log)|]
    ensures AsksFor(wire.log[|old(wire.log)|], old(PointOf(partial)), partial)
    ensures Outgoing(r, kept).Some? ==>
              fresh(Outgoing(r, kept).value.writer)
              || (partial.Some? && Outgoing(r, kept).value.writer == partial.value.writer)
    ensures r.None? ==>
              && partial.Some?
              && (partial.value.expected.total.Some? ==> kept.value.expected.total == partial.value.expected.total)
              && old(partial.value.writer.written) < kept.value.writer.written
  {
    ghost var shape := ShapeOf(b.shape, wire.log, b.from);
    var answer;
    answer, kept := Ask(wire, dest, partial, start, reporter.doneBytes, expectOf, objectOf, b);
    if answer.NotOpened? {
      r := Some(Gave(HttpFailed(answer.error)));
    } else {
      r, kept := Settle(wire, dest, answer.continued, answer.body, start, reporter, expectOf(answer.body),
                        objectOf, b, shape);
    }
  }

  lemma StillStarts(before: seq<Exchange>, sooner: seq<Exchange>, log: seq<Exchange>)
    requires |before| <= |sooner| < |log| && before == sooner[..|before|] && sooner == log[..|sooner|]
    ensures before == log[..|before|] && (|before| < |sooner| ==> log[|before|] == sooner[|before|])
  {
  }

  /** The attempt as a whole. It ends for any finite bodies: a further round
    * follows only a range that grew the file below a total that no longer changes. */
  method Attempt(wire: Wire, dest: DestFile, partial: Option<Partial>, start: nat, reporter: Reporter,
                 expectOf: Body -> Expect, ghost objectOf: string -> seq<Byte>, ghost fixed: Expect)
    returns (r: Outcome, kept: Option<Partial>)
    requires wire.Valid() && Disciplined(wire.log) && start <= reporter.doneBytes
    requires partial.Some? ==>
               Sound(partial.value, dest, start, reporter.doneBytes) && Unjudged(wire.log, partial.value.writer)
    modifies wire, dest, reporter`doneBytes, if partial.Some? then {partial.value.writer} else {}
    ensures var b := old(Begin(wire, dest, partial, objectOf, expectOf, fixed));
            && Keeps(wire, dest, Outgoing(Some(r), kept), start, reporter.doneBytes, b, objectOf)
            && Ended(wire.log, dest.bytes, Some(r), kept, b)
    ensures old(wire.log) == wire.log[..|old(wire.log)|]
    ensures AsksFor(wire.log[|old(wire.log)|], old(PointOf(partial)), partial)
    ensures Outgoing(Some(r), kept).Some? ==>
              fresh(Outgoing(Some(r), kept).value.writer)
              || (partial.Some? && Outgoing(Some(r), kept).value.writer == partial.value.writer)
  {
    ghost var b := Begin(wire, dest, partial, objectOf, expectOf, fixed);
    ghost var point := PointOf(partial);
    var round: Option<Outcome> := None;
    kept := partial;
    while round.None?
      invariant Keeps(wire, dest, Outgoing(round, kept), start, reporter.doneBytes, b, objectOf)
      invariant old(wire.log) == wire.log[..b.from]
      invariant if |wire.log| == b.from then round.None? && kept == partial && PointOf(kept) == point
                else Ended(wire.log, dest.bytes, round, kept, b) && AsksFor(wire.log[b.from], point, partial)
      invariant Outgoing(round, kept).Some? ==>
                  fresh(Outgoing(round, kept).value.writer)
                  || (partial.Some? && Outgoing(round, kept).value.writer == partial.value.writer)
      decreases round.None?, |wire.log| == b.from,
                if kept.Some? && kept.value.expected.total.Some?
                then kept.value.expected.total.value - kept.value.writer.written else 0
    {
      ghost var sooner := wire.log;
      assert Outgoing(round, kept) == kept;
      round, kept := Round(wire, dest, kept, start, reporter, expectOf, objectOf, b);
      StillStarts(old(wire.log), sooner, wire.log);
    }
    r := round.value;
    assert Some(r) == round;
  }
}
