/** The quota sweep: plans, removes what it can, pins what would not go, and plans again. */
module Sweep {
  import opened Prelude
  import opened Quota

  // ---------------------------------------------------------------- one round

  function ModelKeys(es: seq<Entry>): set<Key> {
    set e | e in es && e.kind.Model? :: e.kind.key
  }

  function RuntimeKeys(es: seq<Entry>): set<Key> {
    set e | e in es && e.kind.Runtime? :: e.kind.key
  }

  function Pinned(pins: Pins, es: seq<Entry>): Pins {
    Pins(pins.models + ModelKeys(es), pins.runtimes + RuntimeKeys(es))
  }

  class SweepPins {
    var models: set<Key>
    var runtimes: set<Key>

    function Now(): Pins
      reads this
    {
      Pins(models, runtimes)
    }

    constructor (pins: Pins)
      ensures Now() == pins
    {
      models, runtimes := pins.models, pins.runtimes;
    }

    method PinFailed(failed: seq<Entry>) returns (pinned: bool)
      modifies this
      ensures Now() == Pinned(old(Now()), failed)
      ensures pinned <==> Now() != old(Now())
    {
      pinned := false;
      for i := 0 to |failed|
        invariant Now() == Pinned(old(Now()), failed[..i])
        invariant pinned <==> Now() != old(Now())
      {
        assert failed[..i + 1] == failed[..i] + [failed[i]];
        match failed[i].kind {
          case Model(key, _, _) =>
            pinned := pinned || key !in models;
            models := models + {key};
          case Runtime(key, _, _, _) =>
            pinned := pinned || key !in runtimes;
            runtimes := runtimes + {key};
          case Garbage =>
        }
      }
      assert failed[..|failed|] == failed;
    }
  }

  /** What an attempt to remove one entry came to. `Gone` may leave the staging lock behind;
    * `Stranded` moved the entry out of the store and then failed to delete it there. */
  datatype Outcome =
    | Gone(lock: Option<Orphan>)
    | Kept
    | Stranded(orphan: Orphan)

  datatype Orphan = Orphan(path: string, size: nat)

  /** What is in the store now, and what was taken out of it, make up what was there before and
    * what the removals left behind, which is garbage. */
  ghost predicate Balanced(now: seq<Entry>, out: seq<Entry>, before: seq<Entry>, left: seq<Entry>) {
    && multiset(now) + multiset(out) == multiset(before) + multiset(left)
    && forall x :: x in left ==> !IsLive(x)
  }

  lemma BalancedStep(mid: seq<Entry>, out: seq<Entry>, before: seq<Entry>, left: seq<Entry>,
                     now: seq<Entry>, moreOut: seq<Entry>, moreLeft: seq<Entry>)
    requires Balanced(mid, out, before, left) && Balanced(now, moreOut, mid, moreLeft)
    ensures Balanced(now, out + moreOut, before, left + moreLeft)
  {
    calc {
      multiset(now) + multiset(out + moreOut);
      (multiset(now) + multiset(moreOut)) + multiset(out);
      (multiset(mid) + multiset(moreLeft)) + multiset(out);
      (multiset(mid) + multiset(out)) + multiset(moreLeft);
      multiset(before) + multiset(left + moreLeft);
    }
  }

  lemma StillThere(evictions: seq<Entry>, i: nat, moved: seq<Entry>,
                   was: seq<Entry>, now: seq<Entry>, left: seq<Entry>)
    requires i < |evictions| && multiset(evictions[i..]) <= multiset(was)
    requires moved <= [evictions[i]] && Balanced(now, moved, was, left)
    ensures multiset(evictions[i + 1..]) <= multiset(now)
  {
    assert evictions[i..] == [evictions[i]] + evictions[i + 1..];
    var rest := multiset(evictions[i + 1..]);
    assert multiset(evictions[i..]) == multiset{evictions[i]} + rest;
    forall x ensures rest[x] <= multiset(now)[x] {
      assert (multiset(now) + multiset(moved))[x] == (multiset(was) + multiset(left))[x];
      assert multiset(moved)[x] <= multiset{evictions[i]}[x];
    }
  }

  function AsGarbage(orphan: Orphan): Entry {
    Entry(orphan.path, orphan.size, Garbage)
  }

  /** The garbage one removal leaves in the store. */
  function LeftBy(outcome: Outcome): seq<Entry> {
    match outcome
    case Gone(lock) => if lock.Some? then [AsGarbage(lock.value)] else []
    case Kept => []
    case Stranded(orphan) => [AsGarbage(orphan)]
  }

  function Leavings(evictions: seq<Entry>, disk: Entry -> Outcome): seq<Entry> {
    if evictions == [] then []
    else Leavings(evictions[..|evictions| - 1], disk) + LeftBy(disk(evictions[|evictions| - 1]))
  }

  lemma LeavingsPush(evictions: seq<Entry>, i: nat, disk: Entry -> Outcome)
    requires i < |evictions|
    ensures Leavings(evictions[..i + 1], disk) == Leavings(evictions[..i], disk) + LeftBy(disk(evictions[i]))
  {
    assert evictions[..i + 1][..i] == evictions[..i];
  }

  datatype SweepReport = SweepReport(removed: seq<Entry>, failed: seq<Entry>, freedBytes: nat)

  lemma TakenOut(es: seq<Entry>, i: nat, outcome: Outcome)
    requires i < |es|
    ensures Balanced(es[..i] + es[i + 1..] + LeftBy(outcome), [es[i]], es, LeftBy(outcome))
  {
    assert es == es[..i] + [es[i]] + es[i + 1..];
  }

  class Store {
    /** In the order the directory walk finds them. */
    var entries: seq<Entry>

    constructor (entries: seq<Entry>)
      ensures this.entries == entries
    {
      this.entries := entries;
    }

    method RemoveEntry(e: Entry, outcome: Outcome) returns (ok: bool)
      requires e in entries
      modifies this
      ensures ok <==> outcome.Gone?
      ensures Balanced(entries, if outcome.Kept? then [] else [e], old(entries), LeftBy(outcome))
    {
      ok := outcome.Gone?;
      if outcome.Kept? {
        return;
      }
      var i :| 0 <= i < |entries| && entries[i] == e;
      TakenOut(entries, i, outcome);
      entries := entries[..i] + entries[i + 1..] + LeftBy(outcome);
    }
  }

  function IsGone(disk: Entry -> Outcome): Entry -> bool {
    e => disk(e).Gone?
  }

  function IsRefused(disk: Entry -> Outcome): Entry -> bool {
    e => !disk(e).Gone?
  }

  function IsOut(disk: Entry -> Outcome): Entry -> bool {
    e => !disk(e).Kept?
  }

  /** Removes the planned entries one by one, skipping those that will not go. */
  method ApplySweep(store: Store, evictions: seq<Entry>, disk: Entry -> Outcome) returns (report: SweepReport)
    requires multiset(evictions) <= multiset(store.entries)
    modifies store
    ensures report.removed == Filter(evictions, IsGone(disk))
    ensures report.failed == Filter(evictions, IsRefused(disk))
    ensures report.freedBytes == Min(Total(report.removed), U64_MAX)
    ensures Balanced(store.entries, Filter(evictions, IsOut(disk)), old(store.entries), Leavings(evictions, disk))
  {
    report := SweepReport([], [], 0);
    for i := 0 to |evictions|
      invariant multiset(evictions[i..]) <= multiset(store.entries)
      invariant report.removed == Filter(evictions[..i], IsGone(disk))
      invariant report.failed == Filter(evictions[..i], IsRefused(disk))
      invariant report.freedBytes == Min(Total(report.removed), U64_MAX)
      invariant Balanced(store.entries, Filter(evictions[..i], IsOut(disk)), old(store.entries),
                         Leavings(evictions[..i], disk))
    {
      var entry := evictions[i];
      FilterPush(evictions, i, IsGone(disk));
      FilterPush(evictions, i, IsRefused(disk));
      FilterPush(evictions, i, IsOut(disk));
      ghost var was := store.entries;
      assert entry in multiset(evictions[i..]);
      var ok := store.RemoveEntry(entry, disk(entry));
      ghost var moved := if disk(entry).Kept? then [] else [entry];
      StillThere(evictions, i, moved, was, store.entries, LeftBy(disk(entry)));
      BalancedStep(was, Filter(evictions[..i], IsOut(disk)), old(store.entries), Leavings(evictions[..i], disk),
                   store.entries, moved, LeftBy(disk(entry)));
      LeavingsPush(evictions, i, disk);
      if ok {
        FreedPush(report.removed, entry);
        report := report.(freedBytes := SaturatingAdd(report.freedBytes, entry.size),
                          removed := report.removed + [entry]);
      } else {
        report := report.(failed := report.failed + [entry]);
      }
    }
    assert evictions[..|evictions|] == evictions;
  }

  // ---------------------------------------------------------------- what one round does

  function Out(evictions: seq<Entry>, disk: Entry -> Outcome): seq<Entry> {
    Filter(evictions, IsOut(disk))
  }

  function Refused(evictions: seq<Entry>, disk: Entry -> Outcome): seq<Entry> {
    Filter(evictions, IsRefused(disk))
  }

  /** A round: the plan for the store as surveyed, applied. */
  ghost predicate IsRound(before: seq<Entry>, pins: Pins, quota: nat, evictions: seq<Entry>,
                          disk: Entry -> Outcome, after: seq<Entry>, left: seq<Entry>) {
    && IsPlan(evictions, NewSurvey(before), quota, pins)
    && left == Leavings(evictions, disk)
    && Balanced(after, Out(evictions, disk), before, left)
  }

  /** How often `x` is evicted: as often as it is a candidate, less what the plan leaves. */
  lemma EvictionCount(before: seq<Entry>, pins: Pins, quota: nat, evictions: seq<Entry>, x: Entry)
    requires IsPlan(evictions, NewSurvey(before), quota, pins)
    ensures multiset(evictions)[x] <= if IsCandidate(x, pins) then multiset(before)[x] else 0
    ensures !IsLive(x) ==> multiset(evictions)[x] == multiset(before)[x]
  {
    var c := Candidates(Sort(before), pins);
    SortIsInOrder(before);
    FilterCount(Sort(before), CandidateUnder(pins), x);
    assert c == evictions + c[|evictions|..];
    assert multiset(c) == multiset(evictions) + multiset(c[|evictions|..]);
    forall y | y in c[|evictions|..] ensures IsLive(y) {
      var n :| |evictions| <= n < |c| && c[n] == y;
    }
    assert x in multiset(c[|evictions|..]) ==> IsLive(x);
  }

  lemma EvictionsAreThere(before: seq<Entry>, pins: Pins, quota: nat, evictions: seq<Entry>)
    requires IsPlan(evictions, NewSurvey(before), quota, pins)
    ensures multiset(evictions) <= multiset(before)
    ensures forall e :: e in evictions ==> e in before && IsCandidate(e, pins)
  {
    forall e ensures multiset(evictions)[e] <= multiset(before)[e] {
      EvictionCount(before, pins, quota, evictions, e);
    }
    forall e | e in evictions ensures e in before && IsCandidate(e, pins) {
      EvictionCount(before, pins, quota, evictions, e);
      assert multiset(evictions)[e] > 0;
    }
  }

  /** A live entry not refused this round: what is left of it was never evicted. */
  lemma LiveBalance(before: seq<Entry>, evictions: seq<Entry>, disk: Entry -> Outcome,
                    after: seq<Entry>, left: seq<Entry>, x: Entry)
    requires Balanced(after, Out(evictions, disk), before, left)
    requires IsLive(x) && x !in Refused(evictions, disk)
    ensures multiset(after)[x] + multiset(evictions)[x] == multiset(before)[x]
  {
    FilterCount(evictions, IsOut(disk), x);
    FilterMember(evictions, IsRefused(disk), x);
    assert (multiset(after) + multiset(Out(evictions, disk)))[x] == (multiset(before) + multiset(left))[x];
    assert x !in multiset(left);
    if disk(x).Kept? {
      assert x !in multiset(evictions);
    }
  }

  lemma CandidateIsUnrefused(x: Entry, pins: Pins, refused: seq<Entry>)
    requires IsLive(x) && IsCandidate(x, Pinned(pins, refused))
    ensures IsCandidate(x, pins) && x !in refused
  {
  }

  lemma RoundIsLruFirst(before: seq<Entry>, pins: Pins, quota: nat, evictions: seq<Entry>,
                        disk: Entry -> Outcome, after: seq<Entry>, left: seq<Entry>, r: Entry, x: Entry)
    requires IsRound(before, pins, quota, evictions, disk, after, left)
    requires r in evictions && x in after
    requires IsLive(x) && IsCandidate(x, Pinned(pins, Refused(evictions, disk)))
    ensures NotAfter(r, x)
  {
    CandidateIsUnrefused(x, pins, Refused(evictions, disk));
    LiveBalance(before, evictions, disk, after, left, x);
    var c := Candidates(Sort(before), pins);
    SortIsInOrder(before);
    FilterInOrder(Sort(before), CandidateUnder(pins));
    FilterCount(Sort(before), CandidateUnder(pins), x);
    assert x in multiset(after);
    BehindThePlan(c, evictions, r, x);
  }

  lemma BehindThePlan(c: seq<Entry>, evictions: seq<Entry>, r: Entry, x: Entry)
    requires InOrder(c) && evictions <= c
    requires r in evictions && multiset(c)[x] > multiset(evictions)[x]
    ensures NotAfter(r, x)
  {
    assert c == evictions + c[|evictions|..];
    assert multiset(c) == multiset(evictions) + multiset(c[|evictions|..]);
    assert x in c[|evictions|..];
    var m :| |evictions| <= m < |c| && c[m] == x;
    var k :| 0 <= k < |evictions| && evictions[k] == r;
    assert c[k] == r;
  }

  /** What stays live and evictable was there, and evictable, before. */
  lemma LiveStays(now: seq<Entry>, out: seq<Entry>, before: seq<Entry>, left: seq<Entry>, x: Entry)
    requires Balanced(now, out, before, left)
    requires x in now && IsLive(x)
    ensures x in before
  {
    assert x in multiset(now);
    assert (multiset(now) + multiset(out))[x] == (multiset(before) + multiset(left))[x];
    assert x !in multiset(left);
  }

  // ---------------------------------------------------------------- the last round

  /** Nothing newly pinned means nothing live was refused. */
  lemma OnlyGarbageRefused(pins: Pins, refused: seq<Entry>)
    requires forall e :: e in refused ==> IsCandidate(e, pins)
    requires Pinned(pins, refused) == pins
    ensures forall e :: e in refused ==> !IsLive(e)
  {
  }

  lemma LastRoundTotal(before: seq<Entry>, pins: Pins, quota: nat, evictions: seq<Entry>,
                       disk: Entry -> Outcome, after: seq<Entry>, left: seq<Entry>)
    requires IsRound(before, pins, quota, evictions, disk, after, left)
    requires forall e :: e in Refused(evictions, disk) ==> !IsLive(e)
    ensures Total(Live(after)) + Total(evictions) == Total(before)
  {
    var all := Live(after) + evictions;
    forall x ensures multiset(all)[x] == multiset(before)[x] {
      FilterCount(after, IsLive, x);
      EvictionCount(before, pins, quota, evictions, x);
      if IsLive(x) {
        LiveBalance(before, evictions, disk, after, left, x);
      }
    }
    assert multiset(all) == multiset(before);
    TotalIsOrderFree(all, before);
    TotalAppend(Live(after), evictions);
  }

  lemma LastRoundGarbage(before: seq<Entry>, pins: Pins, quota: nat, evictions: seq<Entry>,
                         disk: Entry -> Outcome, after: seq<Entry>, left: seq<Entry>, x: Entry)
    requires IsRound(before, pins, quota, evictions, disk, after, left)
    requires x in after && !IsLive(x)
    ensures x in Refused(evictions, disk) || x in left
  {
    EvictionCount(before, pins, quota, evictions, x);
    FilterCount(evictions, IsOut(disk), x);
    FilterMember(evictions, IsRefused(disk), x);
    assert x in multiset(after);
    assert (multiset(after) + multiset(Out(evictions, disk)))[x] == (multiset(before) + multiset(left))[x];
    if x !in left {
      assert x !in multiset(left);
      assert disk(x).Kept?;
    }
  }

  // ---------------------------------------------------------------- never more than called for

  lemma LiveConserved(now: seq<Entry>, out: seq<Entry>, before: seq<Entry>, left: seq<Entry>)
    requires Balanced(now, out, before, left)
    ensures Total(Live(now)) + Total(Live(out)) == Total(Live(before))
  {
    var all := Live(now) + Live(out);
    forall x ensures multiset(all)[x] == multiset(Live(before))[x] {
      FilterCount(now, IsLive, x);
      FilterCount(out, IsLive, x);
      FilterCount(before, IsLive, x);
      assert (multiset(now) + multiset(out))[x] == (multiset(before) + multiset(left))[x];
      assert IsLive(x) ==> x !in multiset(left);
    }
    assert multiset(all) == multiset(Live(before));
    TotalIsOrderFree(all, Live(before));
    TotalAppend(Live(now), Live(out));
  }

  /** By the time a live entry is evicted, all the garbage has been. */
  lemma GarbageGoesFirst(before: seq<Entry>, pins: Pins, quota: nat, evictions: seq<Entry>, n: nat)
    requires IsPlan(evictions, NewSurvey(before), quota, pins)
    requires n < |evictions| && IsLive(evictions[n])
    ensures Total(Dead(evictions[..n])) == Total(Dead(before))
  {
    PlanInOrder(before, pins, quota, evictions);
    NoDeadFrom(evictions, n);
    AllGarbagePlanned(before, pins, quota, evictions);
  }

  lemma PlanInOrder(before: seq<Entry>, pins: Pins, quota: nat, evictions: seq<Entry>)
    requires IsPlan(evictions, NewSurvey(before), quota, pins)
    ensures InOrder(evictions)
  {
    SortIsInOrder(before);
    FilterInOrder(Sort(before), CandidateUnder(pins));
  }

  lemma AllGarbagePlanned(before: seq<Entry>, pins: Pins, quota: nat, evictions: seq<Entry>)
    requires IsPlan(evictions, NewSurvey(before), quota, pins)
    ensures Total(Dead(evictions)) == Total(Dead(before))
  {
    forall x ensures multiset(Dead(evictions))[x] == multiset(Dead(before))[x] {
      FilterCount(evictions, IsDead, x);
      FilterCount(before, IsDead, x);
      EvictionCount(before, pins, quota, evictions, x);
    }
    assert multiset(Dead(evictions)) == multiset(Dead(before));
    TotalIsOrderFree(Dead(evictions), Dead(before));
  }

  lemma NoDeadFrom(evictions: seq<Entry>, n: nat)
    requires InOrder(evictions) && n < |evictions| && IsLive(evictions[n])
    ensures Dead(evictions) == Dead(evictions[..n])
  {
    forall y | y in evictions[n..] ensures !IsDead(y) {
      var k :| n <= k < |evictions| && evictions[k] == y;
      if k > n { assert NotAfter(evictions[n], evictions[k]); }
    }
    FilterNone(evictions[n..], IsDead);
    assert evictions == evictions[..n] + evictions[n..];
    FilterAppend(evictions[..n], evictions[n..], IsDead);
  }

  lemma {:induction false} LastOut(evictions: seq<Entry>, disk: Entry -> Outcome) returns (n: nat)
    requires Live(Out(evictions, disk)) != []
    ensures n < |evictions| && IsLive(evictions[n])
    ensures Live(Out(evictions, disk)) == Live(Out(evictions[..n], disk)) + [evictions[n]]
  {
    n := |evictions| - 1;
    var front := evictions[..n];
    assert evictions[..n + 1] == evictions;
    FilterPush(evictions, n, IsOut(disk));
    if disk(evictions[n]).Kept? || !IsLive(evictions[n]) {
      FilterAppend(Out(front, disk), if disk(evictions[n]).Kept? then [] else [evictions[n]], IsLive);
      n := LastOut(front, disk);
      assert front[..n] == evictions[..n];
    } else {
      FilterAppend(Out(front, disk), [evictions[n]], IsLive);
    }
  }

  /** Without the last live eviction the live entries alone would exceed the quota. */
  ghost predicate Frugal(out: seq<Entry>, now: seq<Entry>, quota: nat) {
    var l := Live(out);
    l != [] ==> Total(Live(now)) + l[|l| - 1].size > quota
  }

  /** With the last live entry taken out put back, the store would be over quota. */
  lemma NotOverEvicted(before: seq<Entry>, pins: Pins, quota: nat, evictions: seq<Entry>,
                       disk: Entry -> Outcome, after: seq<Entry>, left: seq<Entry>)
    requires IsRound(before, pins, quota, evictions, disk, after, left)
    ensures Frugal(Out(evictions, disk), after, quota)
  {
    if Live(Out(evictions, disk)) != [] {
      NotOverEvictedBy(before, pins, quota, evictions, disk, after, left);
    }
  }

  lemma NotOverEvictedBy(before: seq<Entry>, pins: Pins, quota: nat, evictions: seq<Entry>,
                         disk: Entry -> Outcome, after: seq<Entry>, left: seq<Entry>)
    requires IsRound(before, pins, quota, evictions, disk, after, left)
    requires Live(Out(evictions, disk)) != []
    ensures var out := Live(Out(evictions, disk));
            Total(Live(after)) + out[|out| - 1].size > quota
  {
    var n := LastOut(evictions, disk);
    var sooner := evictions[..n];
    LiveConserved(after, Out(evictions, disk), before, left);
    TotalAppend(Live(Out(sooner, disk)), [evictions[n]]);
    FilterTotals(sooner, IsOut(disk), IsLive);
    GarbageGoesFirst(before, pins, quota, evictions, n);
    LiveAndDead(sooner);
    LiveAndDead(before);
    SurveyTotal(before);
  }

  lemma SurveyTotal(before: seq<Entry>)
    ensures NewSurvey(before).usedBytes == Min(Total(before), U64_MAX)
  {
    SortIsInOrder(before);
    SaturatingTotalIsExact(Sort(before));
    TotalIsOrderFree(Sort(before), before);
  }

  // ---------------------------------------------------------------- all the rounds

  /** The whole sweep so far: what was taken out of the store and what that left in it, what was
    * moved out but not deleted, and every refusal. */
  datatype Log = Log(out: seq<Entry>, left: seq<Entry>, stranded: seq<Entry>, refused: seq<Entry>)

  function IsStranded(disk: Entry -> Outcome): Entry -> bool {
    e => disk(e).Stranded?
  }

  function Logged(log: Log, evictions: seq<Entry>, disk: Entry -> Outcome, left: seq<Entry>): Log {
    Log(log.out + Out(evictions, disk), log.left + left,
        log.stranded + Filter(evictions, IsStranded(disk)), log.refused + Refused(evictions, disk))
  }

  /** No evictable entry still in the store was used less recently than a live one taken out. */
  ghost predicate LruFirst(out: seq<Entry>, now: seq<Entry>, pins: Pins) {
    forall r, x :: r in out && x in now && IsLive(r) && IsLive(x) && IsCandidate(x, pins) ==> NotAfter(r, x)
  }

  ghost predicate TakesOnly(out: seq<Entry>, pins: Pins) {
    forall e :: e in out ==> IsCandidate(e, pins)
  }

  lemma PinnedTwice(pins: Pins, a: seq<Entry>, b: seq<Entry>)
    ensures Pinned(Pinned(pins, a), b) == Pinned(pins, a + b)
  {
  }

  lemma {:induction false} OutSplits(evictions: seq<Entry>, disk: Entry -> Outcome)
    ensures multiset(Out(evictions, disk))
            == multiset(Filter(evictions, IsGone(disk))) + multiset(Filter(evictions, IsStranded(disk)))
  {
    forall x
      ensures multiset(Out(evictions, disk))[x]
              == multiset(Filter(evictions, IsGone(disk)))[x] + multiset(Filter(evictions, IsStranded(disk)))[x]
    {
      FilterCount(evictions, IsOut(disk), x);
      FilterCount(evictions, IsGone(disk), x);
      FilterCount(evictions, IsStranded(disk), x);
    }
  }

  lemma TakesOnlyStep(log: Log, first: Pins, pins: Pins, evictions: seq<Entry>, disk: Entry -> Outcome)
    requires TakesOnly(log.out, first) && pins == Pinned(first, log.refused)
    requires TakesOnly(evictions, pins)
    ensures TakesOnly(log.out + Out(evictions, disk), first)
  {
    forall e | e in log.out + Out(evictions, disk) ensures IsCandidate(e, first) {
      FilterMember(evictions, IsOut(disk), e);
    }
  }

  lemma LruFirstStep(log: Log, before: seq<Entry>, pins: Pins, quota: nat, evictions: seq<Entry>,
                     disk: Entry -> Outcome, after: seq<Entry>, left: seq<Entry>)
    requires LruFirst(log.out, before, pins)
    requires IsRound(before, pins, quota, evictions, disk, after, left)
    ensures LruFirst(log.out + Out(evictions, disk), after, Pinned(pins, Refused(evictions, disk)))
  {
    var refused := Refused(evictions, disk);
    forall r, x | r in log.out + Out(evictions, disk) && x in after
                  && IsLive(r) && IsLive(x) && IsCandidate(x, Pinned(pins, refused))
      ensures NotAfter(r, x)
    {
      if r in log.out {
        CandidateIsUnrefused(x, pins, refused);
        LiveStays(after, Out(evictions, disk), before, left, x);
      } else {
        FilterMember(evictions, IsOut(disk), r);
        RoundIsLruFirst(before, pins, quota, evictions, disk, after, left, r, x);
      }
    }
  }

  lemma FrugalStep(before: seq<Entry>, sooner: seq<Entry>, out: seq<Entry>, quota: nat,
                   after: seq<Entry>, left: seq<Entry>)
    requires Frugal(sooner, before, quota) && Frugal(out, after, quota)
    requires Balanced(after, out, before, left)
    ensures Frugal(sooner + out, after, quota)
  {
    FilterAppend(sooner, out, IsLive);
    LiveConserved(after, out, before, left);
  }

  /** What holds of the sweep between rounds. */
  ghost predicate Swept(first: seq<Entry>, firstPins: Pins, quota: nat, log: Log, removed: seq<Entry>,
                        now: seq<Entry>, pins: Pins) {
    && Balanced(now, log.out, first, log.left)
    && multiset(log.out) == multiset(removed) + multiset(log.stranded)
    && TakesOnly(log.out, firstPins)
    && pins == Pinned(firstPins, log.refused)
    && LruFirst(log.out, now, pins)
    && Frugal(log.out, now, quota)
  }

  lemma SweptStep(first: seq<Entry>, firstPins: Pins, quota: nat, log: Log, removed: seq<Entry>,
                  before: seq<Entry>, pins: Pins, evictions: seq<Entry>, disk: Entry -> Outcome,
                  after: seq<Entry>, left: seq<Entry>)
    requires Swept(first, firstPins, quota, log, removed, before, pins)
    requires IsRound(before, pins, quota, evictions, disk, after, left)
    ensures Swept(first, firstPins, quota, Logged(log, evictions, disk, left),
                  removed + Filter(evictions, IsGone(disk)), after, Pinned(pins, Refused(evictions, disk)))
  {
    BalancedStep(before, log.out, first, log.left, after, Out(evictions, disk), left);
    OutSplits(evictions, disk);
    EvictionsAreThere(before, pins, quota, evictions);
    TakesOnlyStep(log, firstPins, pins, evictions, disk);
    PinnedTwice(firstPins, log.refused, Refused(evictions, disk));
    LruFirstStep(log, before, pins, quota, evictions, disk, after, left);
    NotOverEvicted(before, pins, quota, evictions, disk, after, left);
    FrugalStep(before, log.out, Out(evictions, disk), quota, after, left);
  }

  // ---------------------------------------------------------------- the sweep

  function AtRound(disk: (nat, Entry) -> Outcome, round: nat): Entry -> Outcome {
    e => disk(round, e)
  }

  predicate HasPath(es: seq<Entry>, path: string) {
    exists e :: e in es && e.path == path
  }

  function Unreported(failed: seq<Entry>): Entry -> bool {
    (e: Entry) => !HasPath(failed, e.path)
  }

  /** Every refused path is reported, and nothing else is. */
  ghost predicate Reports(failed: seq<Entry>, refused: seq<Entry>) {
    && (forall e :: e in failed ==> e in refused)
    && (forall e :: e in refused ==> HasPath(failed, e.path))
  }

  lemma ReportsStep(failed: seq<Entry>, refused: seq<Entry>, more: seq<Entry>)
    requires Reports(failed, refused)
    ensures Reports(failed + Filter(more, Unreported(failed)), refused + more)
  {
    var novel := Filter(more, Unreported(failed));
    forall e | e in failed + novel ensures e in refused + more {
      FilterMember(more, Unreported(failed), e);
    }
    forall e | e in refused + more ensures HasPath(failed + novel, e.path) {
      if HasPath(failed, e.path) {
        var g :| g in failed && g.path == e.path;
        assert g in failed + novel;
      } else {
        FilterMember(more, Unreported(failed), e);
        assert e in failed + novel;
      }
    }
  }

  /** Only keys of live entries the store began with are ever pinned. */
  lemma RefusedKeys(first: seq<Entry>, out: seq<Entry>, left: seq<Entry>, before: seq<Entry>,
                    evictions: seq<Entry>, disk: Entry -> Outcome)
    requires Balanced(before, out, first, left)
    requires forall e :: e in evictions ==> e in before
    ensures ModelKeys(Refused(evictions, disk)) <= ModelKeys(first)
    ensures RuntimeKeys(Refused(evictions, disk)) <= RuntimeKeys(first)
  {
    forall e | e in Refused(evictions, disk) && IsLive(e) ensures e in first {
      FilterMember(evictions, IsRefused(disk), e);
      LiveStays(before, out, first, left, e);
    }
  }

  lemma TotalBound(now: seq<Entry>, out: seq<Entry>, before: seq<Entry>, left: seq<Entry>)
    requires Balanced(now, out, before, left)
    ensures Total(now) <= Total(before) + Total(left)
  {
    assert multiset(now + out) == multiset(before + left);
    TotalIsOrderFree(now + out, before + left);
    TotalAppend(now, out);
    TotalAppend(before, left);
  }

  lemma NothingEvictableLeft(before: seq<Entry>, pins: Pins, quota: nat, evictions: seq<Entry>,
                             disk: Entry -> Outcome, after: seq<Entry>, left: seq<Entry>, x: Entry)
    requires IsRound(before, pins, quota, evictions, disk, after, left)
    requires evictions == Candidates(Sort(before), pins)
    requires forall e :: e in Refused(evictions, disk) ==> !IsLive(e)
    requires x in after && IsLive(x)
    ensures !IsCandidate(x, pins)
  {
    LiveBalance(before, evictions, disk, after, left, x);
    SortIsInOrder(before);
    FilterCount(Sort(before), CandidateUnder(pins), x);
    assert x in multiset(after);
  }

  lemma FewerKeys(first: seq<Entry>, pins: Pins, refused: seq<Entry>)
    requires ModelKeys(refused) <= ModelKeys(first) && RuntimeKeys(refused) <= RuntimeKeys(first)
    requires Pinned(pins, refused) != pins
    ensures var after := Pinned(pins, refused);
            || ModelKeys(first) - after.models < ModelKeys(first) - pins.models
            || (ModelKeys(first) - after.models == ModelKeys(first) - pins.models &&
                RuntimeKeys(first) - after.runtimes < RuntimeKeys(first) - pins.runtimes)
  {
  }

  /** How the sweep may stop: the plan's overage is the live bytes over quota (if the bytes counted
    * fit 64 bits), and when there is one nothing evictable is left; what garbage is left was refused,
    * or was left by a removal. */
  ghost predicate Finished(bytes: nat, pins: Pins, quota: nat, stillOverBy: Option<nat>,
                           refused: seq<Entry>, left: seq<Entry>, now: seq<Entry>) {
    && (bytes <= U64_MAX ==> stillOverBy == Overage(Total(Live(now)), quota))
    && (stillOverBy.Some? ==> forall x :: x in now && IsLive(x) ==> !IsCandidate(x, pins))
    && (forall x :: x in now && !IsLive(x) ==> x in refused || x in left)
  }

  ghost function PlannedOverage(before: seq<Entry>, evictions: seq<Entry>, quota: nat): Option<nat> {
    Overage(NewSurvey(before).usedBytes - Total(evictions), quota)
  }

  lemma OverTakesAll(before: seq<Entry>, pins: Pins, quota: nat, evictions: seq<Entry>)
    requires IsPlan(evictions, NewSurvey(before), quota, pins)
    requires PlannedOverage(before, evictions, quota).Some?
    ensures evictions == Candidates(Sort(before), pins)
  {
  }

  lemma OverageIsExact(before: seq<Entry>, quota: nat, evictions: seq<Entry>, after: seq<Entry>)
    requires Total(Live(after)) + Total(evictions) == Total(before) <= U64_MAX
    ensures PlannedOverage(before, evictions, quota) == Overage(Total(Live(after)), quota)
  {
    SurveyTotal(before);
  }

  lemma LastRound(before: seq<Entry>, pins: Pins, quota: nat, evictions: seq<Entry>,
                  disk: Entry -> Outcome, after: seq<Entry>, left: seq<Entry>)
    requires IsRound(before, pins, quota, evictions, disk, after, left)
    requires Pinned(pins, Refused(evictions, disk)) == pins
    ensures Finished(Total(before), pins, quota, PlannedOverage(before, evictions, quota),
                     Refused(evictions, disk), left, after)
  {
    var refused := Refused(evictions, disk);
    EvictionsAreThere(before, pins, quota, evictions);
    forall e | e in refused ensures IsCandidate(e, pins) {
      FilterMember(evictions, IsRefused(disk), e);
    }
    OnlyGarbageRefused(pins, refused);
    LastRoundTotal(before, pins, quota, evictions, disk, after, left);
    if Total(before) <= U64_MAX {
      OverageIsExact(before, quota, evictions, after);
    }
    forall x | x in after && !IsLive(x) ensures x in refused || x in left {
      LastRoundGarbage(before, pins, quota, evictions, disk, after, left, x);
    }
    if PlannedOverage(before, evictions, quota).Some? {
      OverTakesAll(before, pins, quota, evictions);
      forall x | x in after && IsLive(x) ensures !IsCandidate(x, pins) {
        NothingEvictableLeft(before, pins, quota, evictions, disk, after, left, x);
      }
    }
  }

  lemma FreedAdd(a: seq<Entry>, b: seq<Entry>)
    ensures SaturatingAdd(Min(Total(a), U64_MAX), Min(Total(b), U64_MAX)) == Min(Total(a + b), U64_MAX)
  {
    TotalAppend(a, b);
  }

  lemma SweepStarts(first: seq<Entry>, pins: Pins, quota: nat)
    ensures Swept(first, pins, quota, Log([], [], [], []), [], first, pins)
  {
  }

  method SurveyAndPlan(entries: seq<Entry>, quota: nat, pins: Pins) returns (plan: SweepPlan)
    ensures IsPlan(plan.evictions, NewSurvey(entries), quota, pins)
    ensures plan.freedBytes == Min(Total(plan.evictions), U64_MAX)
    ensures plan.stillOverBy == PlannedOverage(entries, plan.evictions, quota)
  {
    SortIsInOrder(entries);
    SurveyTotal(entries);
    plan := Plan(NewSurvey(entries), quota, pins);
  }

  /** Survey, plan, apply, and pin what would not go. */
  method Round(store: Store, quota: nat, pins: SweepPins, disk: Entry -> Outcome)
    returns (plan: SweepPlan, report: SweepReport, again: bool)
    modifies store, pins
    ensures IsRound(old(store.entries), old(pins.Now()), quota, plan.evictions, disk, store.entries,
                    Leavings(plan.evictions, disk))
    ensures plan.freedBytes == Min(Total(plan.evictions), U64_MAX)
    ensures plan.stillOverBy == PlannedOverage(old(store.entries), plan.evictions, quota)
    ensures report == ReportOf(plan.evictions, disk)
    ensures pins.Now() == Pinned(old(pins.Now()), Refused(plan.evictions, disk))
    ensures again <==> pins.Now() != old(pins.Now())
  {
    plan := SurveyAndPlan(store.entries, quota, pins.Now());
    EvictionsAreThere(store.entries, pins.Now(), quota, plan.evictions);
    report := ApplySweep(store, plan.evictions, disk);
    again := pins.PinFailed(report.failed);
  }

  ghost function ReportOf(evictions: seq<Entry>, disk: Entry -> Outcome): SweepReport {
    var removed := Filter(evictions, IsGone(disk));
    SweepReport(removed, Refused(evictions, disk), Min(Total(removed), U64_MAX))
  }

  function Merged(done: SweepReport, report: SweepReport): SweepReport {
    SweepReport(done.removed + report.removed,
                done.failed + Filter(report.failed, Unreported(done.failed)),
                SaturatingAdd(done.freedBytes, report.freedBytes))
  }

  // ---------------------------------------------------------------- the rounds a sweep makes

  /** One round as it went: the store surveyed, the pins it ran under, its plan, and the store after. */
  datatype Lap = Lap(before: seq<Entry>, pins: Pins, evictions: seq<Entry>, after: seq<Entry>)

  ghost function NowAfter(laps: seq<Lap>, first: seq<Entry>): seq<Entry> {
    if laps == [] then first else laps[|laps| - 1].after
  }

  ghost function PinsAfter(laps: seq<Lap>, firstPins: Pins, disk: (nat, Entry) -> Outcome): Pins {
    if laps == [] then firstPins
    else
      var n := |laps| - 1;
      Pinned(laps[n].pins, Refused(laps[n].evictions, AtRound(disk, n)))
  }

  /** A round pinned nothing new. */
  ghost predicate Settled(laps: seq<Lap>, firstPins: Pins, disk: (nat, Entry) -> Outcome) {
    laps != [] && PinsAfter(laps, firstPins, disk) == laps[|laps| - 1].pins
  }

  /** The rounds of a sweep: each plans for what the one before left, under the pins it left, fares
    * as the disk answers that round, and is made only if the one before pinned something new. */
  ghost predicate IsSweep(laps: seq<Lap>, first: seq<Entry>, firstPins: Pins, quota: nat,
                          disk: (nat, Entry) -> Outcome) {
    laps == [] ||
    var n := |laps| - 1;
    var sooner, lap := laps[..n], laps[n];
    && IsSweep(sooner, first, firstPins, quota, disk)
    && !Settled(sooner, firstPins, disk)
    && lap.before == NowAfter(sooner, first)
    && lap.pins == PinsAfter(sooner, firstPins, disk)
    && IsRound(lap.before, lap.pins, quota, lap.evictions, AtRound(disk, n), lap.after,
               Leavings(lap.evictions, AtRound(disk, n)))
  }

  ghost function LogOf(laps: seq<Lap>, disk: (nat, Entry) -> Outcome): Log {
    if laps == [] then Log([], [], [], [])
    else
      var n := |laps| - 1;
      var fate := AtRound(disk, n);
      Logged(LogOf(laps[..n], disk), laps[n].evictions, fate, Leavings(laps[n].evictions, fate))
  }

  ghost function ReportAfter(laps: seq<Lap>, disk: (nat, Entry) -> Outcome): SweepReport {
    if laps == [] then SweepReport([], [], 0)
    else
      var n := |laps| - 1;
      Merged(ReportAfter(laps[..n], disk), ReportOf(laps[n].evictions, AtRound(disk, n)))
  }

  predicate Refuses(outcome: Outcome) {
    !outcome.Gone?
  }

  predicate Strands(outcome: Outcome) {
    outcome.Stranded?
  }

  predicate Removes(outcome: Outcome) {
    outcome.Gone?
  }

  /** Some round planned `e`, and the disk answered its removal in a way `what` picks. */
  ghost predicate Answered(laps: seq<Lap>, disk: (nat, Entry) -> Outcome, e: Entry, what: Outcome -> bool) {
    exists n :: 0 <= n < |laps| && e in laps[n].evictions && what(disk(n, e))
  }

  /** The log and the report hold what the disk answered, and nothing else. */
  lemma {:induction false} LogTellsDisk(laps: seq<Lap>, disk: (nat, Entry) -> Outcome, e: Entry)
    ensures e in LogOf(laps, disk).refused <==> Answered(laps, disk, e, Refuses)
    ensures e in LogOf(laps, disk).stranded <==> Answered(laps, disk, e, Strands)
    ensures e in ReportAfter(laps, disk).removed <==> Answered(laps, disk, e, Removes)
  {
    if laps != [] {
      var n := |laps| - 1;
      LogTellsDisk(laps[..n], disk, e);
      FilterMember(laps[n].evictions, IsRefused(AtRound(disk, n)), e);
      FilterMember(laps[n].evictions, IsStranded(AtRound(disk, n)), e);
      FilterMember(laps[n].evictions, IsGone(AtRound(disk, n)), e);
      AnsweredPush(laps, disk, e, Refuses);
      AnsweredPush(laps, disk, e, Strands);
      AnsweredPush(laps, disk, e, Removes);
    }
  }

  lemma AnsweredPush(laps: seq<Lap>, disk: (nat, Entry) -> Outcome, e: Entry, what: Outcome -> bool)
    requires laps != []
    ensures var n := |laps| - 1;
            Answered(laps, disk, e, what) <==>
              Answered(laps[..n], disk, e, what) || (e in laps[n].evictions && what(disk(n, e)))
  {
    var n := |laps| - 1;
    if Answered(laps[..n], disk, e, what) {
      var k :| 0 <= k < n && e in laps[..n][k].evictions && what(disk(k, e));
      assert e in laps[k].evictions;
    }
  }

  // ---------------------------------------------------------------- what the rounds come to

  lemma {:induction false} SweepKeeps(laps: seq<Lap>, first: seq<Entry>, firstPins: Pins, quota: nat,
                                      disk: (nat, Entry) -> Outcome)
    requires IsSweep(laps, first, firstPins, quota, disk)
    ensures Swept(first, firstPins, quota, LogOf(laps, disk), ReportAfter(laps, disk).removed,
                  NowAfter(laps, first), PinsAfter(laps, firstPins, disk))
  {
    if laps == [] {
      SweepStarts(first, firstPins, quota);
    } else {
      var n := |laps| - 1;
      var sooner, lap, fate := laps[..n], laps[n], AtRound(disk, n);
      SweepKeeps(sooner, first, firstPins, quota, disk);
      SweptStep(first, firstPins, quota, LogOf(sooner, disk), ReportAfter(sooner, disk).removed,
                lap.before, lap.pins, lap.evictions, fate, lap.after, Leavings(lap.evictions, fate));
    }
  }

  /** The report frees what it says it removed, and names every refused path and no other. */
  lemma {:induction false} ReportTells(laps: seq<Lap>, disk: (nat, Entry) -> Outcome)
    ensures var done := ReportAfter(laps, disk);
            && done.freedBytes == Min(Total(done.removed), U64_MAX)
            && Reports(done.failed, LogOf(laps, disk).refused)
  {
    if laps != [] {
      var n := |laps| - 1;
      ReportTells(laps[..n], disk);
      var done, report := ReportAfter(laps[..n], disk), ReportOf(laps[n].evictions, AtRound(disk, n));
      FreedAdd(done.removed, report.removed);
      ReportsStep(done.failed, LogOf(laps[..n], disk).refused, report.failed);
    }
  }

  /** No two entries share a path. */
  predicate DistinctPaths(es: seq<Entry>) {
    es == [] || (!HasPath(es[1..], es[0].path) && DistinctPaths(es[1..]))
  }

  lemma {:induction false} InsertPaths(e: Entry, es: seq<Entry>, path: string)
    ensures HasPath(Insert(e, es), path) <==> e.path == path || HasPath(es, path)
    ensures DistinctPaths(es) && !HasPath(es, e.path) ==> DistinctPaths(Insert(e, es))
  {
    PrependPath(e, es, path);
    if es != [] && !NotAfter(e, es[0]) {
      InsertPaths(e, es[1..], path);
      InsertPaths(e, es[1..], es[0].path);
      PrependPath(es[0], es[1..], path);
      PrependPath(es[0], es[1..], e.path);
      assert es == [es[0]] + es[1..];
      PrependPath(es[0], Insert(e, es[1..]), path);
    }
  }

  lemma PrependPath(e: Entry, es: seq<Entry>, path: string)
    ensures HasPath([e] + es, path) <==> e.path == path || HasPath(es, path)
    ensures DistinctPaths([e] + es) <==> !HasPath(es, e.path) && DistinctPaths(es)
  {
    var all := [e] + es;
    assert all[1..] == es && e in all;
    if HasPath(es, path) {
      var x :| x in es && x.path == path;
      assert x in all;
    }
  }

  lemma {:induction false} SortPaths(es: seq<Entry>, path: string)
    ensures HasPath(Sort(es), path) <==> HasPath(es, path)
    ensures DistinctPaths(es) ==> DistinctPaths(Sort(es))
  {
    if es != [] {
      SortPaths(es[1..], path);
      SortPaths(es[1..], es[0].path);
      InsertPaths(es[0], Sort(es[1..]), path);
      assert es == [es[0]] + es[1..];
      PrependPath(es[0], es[1..], path);
    }
  }

  lemma {:induction false} FilterPaths(es: seq<Entry>, keep: Entry -> bool)
    requires DistinctPaths(es)
    ensures DistinctPaths(Filter(es, keep))
  {
    if es != [] {
      FilterPaths(es[1..], keep);
      var rest := Filter(es[1..], keep);
      if HasPath(rest, es[0].path) {
        var x :| x in rest && x.path == es[0].path;
        FilterMember(es[1..], keep, x);
      }
      PrependPath(es[0], rest, es[0].path);
      assert [] + rest == rest;
    }
  }

  lemma {:induction false} JoinPaths(a: seq<Entry>, b: seq<Entry>)
    requires DistinctPaths(a) && DistinctPaths(b)
    requires forall x, y :: x in a && y in b ==> x.path != y.path
    ensures DistinctPaths(a + b)
  {
    if a == [] {
      assert a + b == b;
    } else {
      JoinPaths(a[1..], b);
      assert a + b == [a[0]] + (a[1..] + b);
      PrependPath(a[0], a[1..] + b, a[0].path);
    }
  }

  lemma {:induction false} PrefixPaths(a: seq<Entry>, b: seq<Entry>)
    requires DistinctPaths(b) && a <= b
    ensures DistinctPaths(a)
  {
    if a != [] {
      PrefixPaths(a[1..], b[1..]);
    }
  }

  /** A round refuses each path of its survey at most once. */
  lemma RefusedPaths(before: seq<Entry>, pins: Pins, quota: nat, evictions: seq<Entry>, disk: Entry -> Outcome)
    requires IsPlan(evictions, NewSurvey(before), quota, pins) && DistinctPaths(before)
    ensures DistinctPaths(Refused(evictions, disk))
  {
    SortPaths(before, "");
    FilterPaths(Sort(before), CandidateUnder(pins));
    PrefixPaths(evictions, Candidates(Sort(before), pins));
    FilterPaths(evictions, IsRefused(disk));
  }

  /** Over all the rounds, no path is reported twice. */
  lemma {:induction false} PathsReportedOnce(laps: seq<Lap>, first: seq<Entry>, firstPins: Pins, quota: nat,
                                             disk: (nat, Entry) -> Outcome)
    requires IsSweep(laps, first, firstPins, quota, disk)
    requires forall lap :: lap in laps ==> DistinctPaths(lap.before)
    ensures DistinctPaths(ReportAfter(laps, disk).failed)
  {
    if laps != [] {
      var n := |laps| - 1;
      PathsReportedOnce(laps[..n], first, firstPins, quota, disk);
      var lap, fate, failed := laps[n], AtRound(disk, n), ReportAfter(laps[..n], disk).failed;
      RefusedPaths(lap.before, lap.pins, quota, lap.evictions, fate);
      FilterPaths(Refused(lap.evictions, fate), Unreported(failed));
      var novel := Filter(Refused(lap.evictions, fate), Unreported(failed));
      forall x, y | x in failed && y in novel ensures x.path != y.path {
        FilterMember(Refused(lap.evictions, fate), Unreported(failed), y);
      }
      JoinPaths(failed, novel);
    }
  }

  /** Nothing leaves the store unreported. */
  lemma NothingVanishes(laps: seq<Lap>, first: seq<Entry>, firstPins: Pins, quota: nat,
                        disk: (nat, Entry) -> Outcome, x: Entry)
    requires IsSweep(laps, first, firstPins, quota, disk)
    requires multiset(NowAfter(laps, first))[x] < multiset(first)[x]
    ensures x in ReportAfter(laps, disk).removed || HasPath(ReportAfter(laps, disk).failed, x.path)
  {
    SweepKeeps(laps, first, firstPins, quota, disk);
    var log, removed := LogOf(laps, disk), ReportAfter(laps, disk).removed;
    assert (multiset(NowAfter(laps, first)) + multiset(log.out))[x] == (multiset(first) + multiset(log.left))[x];
    assert multiset(log.out)[x] == (multiset(removed) + multiset(log.stranded))[x];
    if x !in removed {
      assert x in multiset(log.stranded);
      LogTellsDisk(laps, disk, x);
      ReportTells(laps, disk);
      var n :| 0 <= n < |laps| && x in laps[n].evictions && Strands(disk(n, x));
      assert Refuses(disk(n, x));
      assert x in log.refused;
    }
  }

  /** What the caller pinned, and what cannot be evicted, is never touched. */
  lemma PinnedIsUntouched(laps: seq<Lap>, first: seq<Entry>, firstPins: Pins, quota: nat,
                          disk: (nat, Entry) -> Outcome, x: Entry)
    requires IsSweep(laps, first, firstPins, quota, disk)
    requires !IsCandidate(x, firstPins)
    ensures multiset(NowAfter(laps, first))[x] == multiset(first)[x]
  {
    SweepKeeps(laps, first, firstPins, quota, disk);
    var log := LogOf(laps, disk);
    assert (multiset(NowAfter(laps, first)) + multiset(log.out))[x] == (multiset(first) + multiset(log.left))[x];
    assert IsLive(x);
    assert x !in multiset(log.out) && x !in multiset(log.left);
  }

  /** Where a settled sweep stands. */
  lemma SweepFinishes(laps: seq<Lap>, first: seq<Entry>, firstPins: Pins, quota: nat,
                      disk: (nat, Entry) -> Outcome)
    requires IsSweep(laps, first, firstPins, quota, disk) && Settled(laps, firstPins, disk)
    ensures var n := |laps| - 1;
            Finished(Total(first) + Total(LogOf(laps, disk).left), PinsAfter(laps, firstPins, disk), quota,
                     PlannedOverage(laps[n].before, laps[n].evictions, quota),
                     Refused(laps[n].evictions, AtRound(disk, n)), LogOf(laps, disk).left, NowAfter(laps, first))
  {
    var n := |laps| - 1;
    var sooner, lap, fate := laps[..n], laps[n], AtRound(disk, n);
    SweepKeeps(sooner, first, firstPins, quota, disk);
    var log := LogOf(sooner, disk);
    LastRound(lap.before, lap.pins, quota, lap.evictions, fate, lap.after, Leavings(lap.evictions, fate));
    TotalBound(lap.before, log.out, first, log.left);
    TotalAppend(log.left, Leavings(lap.evictions, fate));
  }

  /** `disk(n, e)` is what removing `e` in round `n` comes to. The rounds made are a sweep of the
    * store that ends with the first one to pin nothing new; the report and the last plan are theirs. */
  method Sweep(store: Store, quota: nat, pins: SweepPins, disk: (nat, Entry) -> Outcome)
    returns (plan: SweepPlan, done: SweepReport, ghost laps: seq<Lap>)
    modifies store, pins
    ensures IsSweep(laps, old(store.entries), old(pins.Now()), quota, disk)
    ensures Settled(laps, old(pins.Now()), disk)
    ensures store.entries == NowAfter(laps, old(store.entries))
    ensures pins.Now() == PinsAfter(laps, old(pins.Now()), disk)
    ensures done == ReportAfter(laps, disk)
    ensures plan.evictions == laps[|laps| - 1].evictions
    ensures plan.freedBytes == Min(Total(plan.evictions), U64_MAX)
    ensures plan.stillOverBy == PlannedOverage(laps[|laps| - 1].before, plan.evictions, quota)
  {
    ghost var first, firstPins := store.entries, pins.Now();
    done, laps := SweepReport([], [], 0), [];
    var round := 0;
    while true
      invariant round == |laps|
      invariant IsSweep(laps, first, firstPins, quota, disk) && !Settled(laps, firstPins, disk)
      invariant store.entries == NowAfter(laps, first)
      invariant pins.Now() == PinsAfter(laps, firstPins, disk)
      invariant done == ReportAfter(laps, disk)
      decreases ModelKeys(first) - pins.models, RuntimeKeys(first) - pins.runtimes
    {
      ghost var sooner, was := laps, pins.Now();
      ghost var before := store.entries;
      var report, again;
      plan, report, again := Round(store, quota, pins, AtRound(disk, round));
      done := Merged(done, report);
      laps := laps + [Lap(before, was, plan.evictions, store.entries)];
      assert laps[..|laps| - 1] == sooner;
      round := round + 1;
      if !again {
        return;
      }
      KeysRunOut(sooner, first, firstPins, quota, disk, plan.evictions);
    }
  }

  /** A round that pins anything new uses up keys of the live entries the store began with. */
  lemma KeysRunOut(laps: seq<Lap>, first: seq<Entry>, firstPins: Pins, quota: nat,
                   disk: (nat, Entry) -> Outcome, evictions: seq<Entry>)
    requires IsSweep(laps, first, firstPins, quota, disk)
    requires IsPlan(evictions, NewSurvey(NowAfter(laps, first)), quota, PinsAfter(laps, firstPins, disk))
    requires var was := PinsAfter(laps, firstPins, disk);
             Pinned(was, Refused(evictions, AtRound(disk, |laps|))) != was
    ensures var was := PinsAfter(laps, firstPins, disk);
            var now := Pinned(was, Refused(evictions, AtRound(disk, |laps|)));
            || ModelKeys(first) - now.models < ModelKeys(first) - was.models
            || (ModelKeys(first) - now.models == ModelKeys(first) - was.models &&
                RuntimeKeys(first) - now.runtimes < RuntimeKeys(first) - was.runtimes)
  {
    var before, was, fate := NowAfter(laps, first), PinsAfter(laps, firstPins, disk), AtRound(disk, |laps|);
    SweepKeeps(laps, first, firstPins, quota, disk);
    EvictionsAreThere(before, was, quota, evictions);
    RefusedKeys(first, LogOf(laps, disk).out, LogOf(laps, disk).left, before, evictions, fate);
    FewerKeys(first, was, Refused(evictions, fate));
  }

  predicate SameKey(a: Entry, b: Entry) {
    || (a.kind.Model? && b.kind.Model? && a.kind.key == b.kind.key)
    || (a.kind.Runtime? && b.kind.Runtime? && a.kind.key == b.kind.key)
  }

  lemma NotCandidateMeans(x: Entry, pins: Pins, refused: seq<Entry>)
    requires !IsCandidate(x, Pinned(pins, refused))
    ensures !IsCandidate(x, pins) || exists f :: f in refused && SameKey(x, f)
  {
  }

  /** The disk refused to remove an entry of `x`'s key, in some round that planned it. */
  ghost predicate KeyRefused(laps: seq<Lap>, disk: (nat, Entry) -> Outcome, x: Entry) {
    exists f :: SameKey(x, f) && Answered(laps, disk, f, Refuses)
  }

  /** What any sweep comes to: usage is at most the quota plus garbage that would not go, or every
    * live entry left was pinned by the caller, cannot be evicted, or was refused by the disk; and
    * what garbage is left the disk refused in the last round, or left in place of something else. */
  lemma SweepGuarantee(laps: seq<Lap>, first: seq<Entry>, firstPins: Pins, quota: nat,
                       disk: (nat, Entry) -> Outcome)
    requires IsSweep(laps, first, firstPins, quota, disk) && Settled(laps, firstPins, disk)
    requires Total(first) + Total(LogOf(laps, disk).left) <= U64_MAX
    ensures var n, now := |laps| - 1, NowAfter(laps, first);
            var fits := Total(now) <= quota + Total(Dead(now));
            && (fits <==> PlannedOverage(laps[n].before, laps[n].evictions, quota).None?)
            && (fits || forall x :: x in now && IsLive(x) ==> !IsCandidate(x, firstPins) || KeyRefused(laps, disk, x))
            && (forall x :: x in now && !IsLive(x) ==>
                              (x in laps[n].evictions && Refuses(disk(n, x))) || x in LogOf(laps, disk).left)
  {
    var n, now, log := |laps| - 1, NowAfter(laps, first), LogOf(laps, disk);
    SweepFinishes(laps, first, firstPins, quota, disk);
    SweepKeeps(laps, first, firstPins, quota, disk);
    LiveAndDead(now);
    forall x | x in now && !IsLive(x)
      ensures (x in laps[n].evictions && Refuses(disk(n, x))) || x in log.left
    {
      FilterMember(laps[n].evictions, IsRefused(AtRound(disk, n)), x);
    }
    if PlannedOverage(laps[n].before, laps[n].evictions, quota).Some? {
      forall x | x in now && IsLive(x) ensures !IsCandidate(x, firstPins) || KeyRefused(laps, disk, x) {
        NotCandidateMeans(x, firstPins, log.refused);
        if IsCandidate(x, firstPins) {
          var f :| f in log.refused && SameKey(x, f);
          LogTellsDisk(laps, disk, f);
        }
      }
    }
  }
}
