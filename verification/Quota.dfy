/** The storage quota: the survey's sweep order and the eviction plan. */
module Quota {
  import opened Prelude

  const U64_MAX: nat := 0xFFFF_FFFF_FFFF_FFFF

  function SaturatingAdd(a: nat, b: nat): nat {
    Min(a + b, U64_MAX)
  }

  function SaturatingSub(a: nat, b: nat): nat {
    Max(0, a - b)
  }

  type Key = string

  /** What an entry is, for accounting; timestamps are instants on one clock. */
  datatype Kind =
    | Garbage
    | Model(key: Key, lastUsed: int, fetched: int)
    | Runtime(key: Key, lastUsed: int, fetched: int, evictable: bool)

  datatype Entry = Entry(path: string, size: nat, kind: Kind)

  predicate IsLive(e: Entry) {
    !e.kind.Garbage?
  }

  function Rank(kind: Kind): nat {
    match kind
    case Garbage => 0
    case Model(_, _, _) => 1
    case Runtime(_, _, _, _) => 2
  }

  /** Sweep order: garbage, models, runtimes, each store least recently used first. Garbage has
    * no timestamps, so all of it ties. */
  predicate NotAfter(a: Entry, b: Entry) {
    if Rank(a.kind) != Rank(b.kind) then Rank(a.kind) < Rank(b.kind)
    else if a.kind.Garbage? || b.kind.Garbage? then true
    else if a.kind.lastUsed != b.kind.lastUsed then a.kind.lastUsed < b.kind.lastUsed
    else a.kind.fetched <= b.kind.fetched
  }

  // ---------------------------------------------------------------- sizes

  /** The true total, without saturation. */
  function Total(es: seq<Entry>): nat {
    if es == [] then 0 else es[0].size + Total(es[1..])
  }

  function SaturatingTotal(es: seq<Entry>): nat {
    if es == [] then 0 else SaturatingAdd(SaturatingTotal(es[..|es| - 1]), es[|es| - 1].size)
  }

  lemma {:induction false} TotalAppend(a: seq<Entry>, b: seq<Entry>)
    ensures Total(a + b) == Total(a) + Total(b)
  {
    if a == [] {
      assert a + b == b;
    } else {
      assert (a + b)[1..] == a[1..] + b;
      TotalAppend(a[1..], b);
    }
  }

  lemma {:induction false} SaturatingTotalIsExact(es: seq<Entry>)
    ensures SaturatingTotal(es) == Min(Total(es), U64_MAX)
  {
    if es != [] {
      var front := es[..|es| - 1];
      SaturatingTotalIsExact(front);
      assert es == front + [es[|es| - 1]];
      TotalAppend(front, [es[|es| - 1]]);
    }
  }

  lemma FreedPush(removed: seq<Entry>, e: Entry)
    ensures Min(Total(removed + [e]), U64_MAX) == SaturatingAdd(Min(Total(removed), U64_MAX), e.size)
  {
    TotalAppend(removed, [e]);
  }

  lemma TakeOut(es: seq<Entry>, i: nat) returns (rest: seq<Entry>)
    requires i < |es|
    ensures |rest| == |es| - 1 && multiset(rest) == multiset(es) - multiset{es[i]}
    ensures Total(es) == es[i].size + Total(rest)
  {
    rest := es[..i] + es[i + 1..];
    assert es == es[..i] + [es[i]] + es[i + 1..];
    TotalAppend(es[..i], es[i + 1..]);
    TotalAppend(es[..i] + [es[i]], es[i + 1..]);
    TotalAppend(es[..i], [es[i]]);
  }

  lemma {:induction false} TotalIsOrderFree(a: seq<Entry>, b: seq<Entry>)
    requires multiset(a) == multiset(b)
    ensures Total(a) == Total(b)
    decreases |a|
  {
    if a == [] {
      assert |multiset(b)| == 0;
    } else {
      assert a[0] in multiset(b);
      var i :| 0 <= i < |b| && b[i] == a[0];
      var aRest := TakeOut(a, 0);
      var bRest := TakeOut(b, i);
      TotalIsOrderFree(aRest, bRest);
    }
  }

  // ---------------------------------------------------------------- the survey

  function Insert(e: Entry, es: seq<Entry>): seq<Entry> {
    if es == [] || NotAfter(e, es[0]) then [e] + es else [es[0]] + Insert(e, es[1..])
  }

  /** A stable sort into sweep order. */
  function Sort(es: seq<Entry>): seq<Entry> {
    if es == [] then [] else Insert(es[0], Sort(es[1..]))
  }

  datatype Survey = Survey(entries: seq<Entry>, usedBytes: nat)

  function NewSurvey(es: seq<Entry>): Survey {
    Survey(Sort(es), SaturatingTotal(Sort(es)))
  }

  ghost predicate InOrder(es: seq<Entry>) {
    forall i, j :: 0 <= i < j < |es| ==> NotAfter(es[i], es[j])
  }

  lemma NotAfterIsTransitive(a: Entry, b: Entry, c: Entry)
    requires NotAfter(a, b) && NotAfter(b, c)
    ensures NotAfter(a, c)
  {
  }

  lemma NotAfterIsTotal(a: Entry, b: Entry)
    ensures NotAfter(a, b) || NotAfter(b, a)
  {
  }

  lemma {:induction false} InsertCounts(e: Entry, es: seq<Entry>)
    ensures multiset(Insert(e, es)) == multiset{e} + multiset(es)
  {
    if es != [] && !NotAfter(e, es[0]) {
      InsertCounts(e, es[1..]);
      assert es == [es[0]] + es[1..];
    }
  }

  lemma PrependKeepsOrder(e: Entry, es: seq<Entry>)
    requires InOrder(es)
    requires forall x :: x in es ==> NotAfter(e, x)
    ensures InOrder([e] + es)
  {
  }

  lemma {:induction false} InsertKeepsOrder(e: Entry, es: seq<Entry>)
    requires InOrder(es)
    ensures InOrder(Insert(e, es))
  {
    if es == [] {
    } else if NotAfter(e, es[0]) {
      forall x | x in es ensures NotAfter(e, x) {
        var i :| 0 <= i < |es| && es[i] == x;
        if i > 0 { NotAfterIsTransitive(e, es[0], es[i]); }
      }
      PrependKeepsOrder(e, es);
    } else {
      NotAfterIsTotal(e, es[0]);
      InsertKeepsOrder(e, es[1..]);
      InsertCounts(e, es[1..]);
      var rest := Insert(e, es[1..]);
      forall x | x in rest ensures NotAfter(es[0], x) {
        assert x in multiset(rest);
        assert x == e || x in multiset(es[1..]);
      }
      PrependKeepsOrder(es[0], rest);
    }
  }

  /** The survey holds the scanned entries, in sweep order. */
  lemma {:induction false} SortIsInOrder(es: seq<Entry>)
    ensures InOrder(Sort(es))
    ensures multiset(Sort(es)) == multiset(es)
  {
    if es != [] {
      SortIsInOrder(es[1..]);
      InsertKeepsOrder(es[0], Sort(es[1..]));
      InsertCounts(es[0], Sort(es[1..]));
      assert es == [es[0]] + es[1..];
    }
  }

  /** The entries that tie with `e`. */
  function Ties(e: Entry, es: seq<Entry>): seq<Entry> {
    if es == [] then []
    else (if NotAfter(e, es[0]) && NotAfter(es[0], e) then [es[0]] else []) + Ties(e, es[1..])
  }

  lemma {:induction false} InsertIsStable(e: Entry, es: seq<Entry>, x: Entry)
    ensures Ties(x, Insert(e, es)) == Ties(x, [e] + es)
  {
    if es == [] || NotAfter(e, es[0]) {
    } else {
      InsertIsStable(e, es[1..], x);
      assert ([e] + es)[1..] == es && ([e] + es[1..])[1..] == es[1..];
      var rest := Insert(e, es[1..]);
      assert ([es[0]] + rest)[1..] == rest;
    }
  }

  /** Ties keep discovery order: all garbage does, and entries with equal timestamps. */
  lemma {:induction false} SortIsStable(es: seq<Entry>, x: Entry)
    ensures Ties(x, Sort(es)) == Ties(x, es)
  {
    if es != [] {
      SortIsStable(es[1..], x);
      InsertIsStable(es[0], Sort(es[1..]), x);
      assert ([es[0]] + Sort(es[1..]))[1..] == Sort(es[1..]);
    }
  }

  // ---------------------------------------------------------------- filtering

  function Filter(es: seq<Entry>, keep: Entry -> bool): seq<Entry> {
    if es == [] then [] else (if keep(es[0]) then [es[0]] else []) + Filter(es[1..], keep)
  }

  lemma {:induction false} FilterAppend(a: seq<Entry>, b: seq<Entry>, keep: Entry -> bool)
    ensures Filter(a + b, keep) == Filter(a, keep) + Filter(b, keep)
  {
    if a == [] {
      assert a + b == b;
    } else {
      var head := if keep(a[0]) then [a[0]] else [];
      assert (a + b)[1..] == a[1..] + b && (a + b)[0] == a[0];
      FilterAppend(a[1..], b, keep);
      Regroup(head, Filter(a[1..], keep), Filter(b, keep));
    }
  }

  lemma Regroup(a: seq<Entry>, b: seq<Entry>, c: seq<Entry>)
    ensures (a + b) + c == a + (b + c)
  {
  }

  lemma FilterPush(es: seq<Entry>, i: nat, keep: Entry -> bool)
    requires i < |es|
    ensures Filter(es[..i + 1], keep) == Filter(es[..i], keep) + (if keep(es[i]) then [es[i]] else [])
  {
    assert es[..i + 1] == es[..i] + [es[i]];
    FilterAppend(es[..i], [es[i]], keep);
  }

  lemma {:induction false} FilterCount(es: seq<Entry>, keep: Entry -> bool, x: Entry)
    ensures multiset(Filter(es, keep))[x] == if keep(x) then multiset(es)[x] else 0
  {
    if es != [] {
      FilterCount(es[1..], keep, x);
      assert es == [es[0]] + es[1..];
    }
  }

  lemma FilterMember(es: seq<Entry>, keep: Entry -> bool, x: Entry)
    ensures x in Filter(es, keep) <==> x in es && keep(x)
  {
  }

  lemma {:induction false} FilterNone(es: seq<Entry>, keep: Entry -> bool)
    requires forall x :: x in es ==> !keep(x)
    ensures Filter(es, keep) == []
  {
    if es != [] {
      FilterNone(es[1..], keep);
    }
  }

  lemma {:induction false} FilterInOrder(es: seq<Entry>, keep: Entry -> bool)
    requires InOrder(es)
    ensures InOrder(Filter(es, keep))
  {
    if es != [] {
      var rest := Filter(es[1..], keep);
      FilterInOrder(es[1..], keep);
      forall x | x in rest ensures NotAfter(es[0], x) {
        FilterMember(es[1..], keep, x);
      }
      PrependKeepsOrder(es[0], rest);
    }
  }

  lemma FilterTotal(es: seq<Entry>, keep: Entry -> bool)
    requires es != []
    ensures Total(Filter(es, keep))
            == (if keep(es[0]) then es[0].size else 0) + Total(Filter(es[1..], keep))
  {
    var rest := Filter(es[1..], keep);
    assert [] + rest == rest && ([es[0]] + rest)[1..] == rest;
  }

  lemma {:induction false} FilterTotals(es: seq<Entry>, a: Entry -> bool, b: Entry -> bool)
    ensures Total(Filter(Filter(es, a), b)) <= Total(Filter(es, b))
  {
    if es != [] {
      FilterTotals(es[1..], a, b);
      FilterTotal(es, b);
      if a(es[0]) {
        var picked := Filter(es, a);
        assert picked[1..] == Filter(es[1..], a);
        FilterTotal(picked, b);
      } else {
        assert Filter(es, a) == Filter(es[1..], a);
      }
    }
  }

  predicate IsDead(e: Entry) {
    !IsLive(e)
  }

  function Live(es: seq<Entry>): seq<Entry> {
    Filter(es, IsLive)
  }

  function Dead(es: seq<Entry>): seq<Entry> {
    Filter(es, IsDead)
  }

  lemma {:induction false} LiveAndDead(es: seq<Entry>)
    ensures Total(Live(es)) + Total(Dead(es)) == Total(es)
  {
    if es != [] {
      LiveAndDead(es[1..]);
      FilterTotal(es, IsLive);
      FilterTotal(es, IsDead);
    }
  }

  // ---------------------------------------------------------------- the plan

  datatype Pins = Pins(models: set<Key>, runtimes: set<Key>)

  predicate IsCandidate(e: Entry, pins: Pins) {
    match e.kind
    case Garbage => true
    case Model(key, _, _) => key !in pins.models
    case Runtime(key, _, _, evictable) => evictable && key !in pins.runtimes
  }

  function CandidateUnder(pins: Pins): Entry -> bool {
    e => IsCandidate(e, pins)
  }

  function Candidates(es: seq<Entry>, pins: Pins): seq<Entry> {
    Filter(es, CandidateUnder(pins))
  }

  /** Each live entry is taken while the ones before it still leave the store over quota. */
  ghost predicate CalledFor(evictions: seq<Entry>, used: nat, quota: nat) {
    forall n :: 0 <= n < |evictions| && IsLive(evictions[n]) ==> used - Total(evictions[..n]) > quota
  }

  lemma CalledForPush(evictions: seq<Entry>, e: Entry, used: nat, quota: nat)
    requires CalledFor(evictions, used, quota)
    requires IsLive(e) ==> used - Total(evictions) > quota
    ensures CalledFor(evictions + [e], used, quota)
  {
    var more := evictions + [e];
    forall n | 0 <= n < |more| && IsLive(more[n]) ensures used - Total(more[..n]) > quota {
      assert more[..n] == evictions[..n];
      assert evictions[..|evictions|] == evictions;
    }
  }

  /** What a plan must be: the head of the candidates in sweep order, holding all the garbage, with
    * no live entry the quota did not call for, and enough to fit unless the candidates run out. */
  ghost predicate IsPlan(evictions: seq<Entry>, survey: Survey, quota: nat, pins: Pins) {
    var c := Candidates(survey.entries, pins);
    && evictions <= c
    && (forall n :: |evictions| <= n < |c| ==> IsLive(c[n]))
    && CalledFor(evictions, survey.usedBytes, quota)
    && (evictions == c || survey.usedBytes - Total(evictions) <= quota)
  }

  lemma PlanIsUnique(a: seq<Entry>, b: seq<Entry>, survey: Survey, quota: nat, pins: Pins)
    requires IsPlan(a, survey, quota, pins) && IsPlan(b, survey, quota, pins)
    ensures a == b
  {
    var k := Min(|a|, |b|);
    var c := Candidates(survey.entries, pins);
    assert a[..k] == c[..k] == b[..k];
    assert a[..|a|] == a && b[..|b|] == b;
  }

  datatype SweepPlan = SweepPlan(evictions: seq<Entry>, freedBytes: nat, stillOverBy: Option<nat>)

  function Overage(bytes: int, quota: nat): Option<nat> {
    if bytes > quota then Some(bytes - quota) else None
  }

  method Plan(survey: Survey, quota: nat, pins: Pins) returns (plan: SweepPlan)
    requires InOrder(survey.entries) && survey.usedBytes <= U64_MAX
    ensures IsPlan(plan.evictions, survey, quota, pins)
    ensures plan.freedBytes == Min(Total(plan.evictions), U64_MAX)
    ensures plan.stillOverBy == Overage(survey.usedBytes - Total(plan.evictions), quota)
  {
    var evictions, freed := PickEvictions(survey, quota, pins);
    SaturationIsHarmless(survey.usedBytes, Total(evictions), quota);
    var remaining := SaturatingSub(survey.usedBytes, freed);
    plan := SweepPlan(evictions, freed, Overage(remaining, quota));
  }

  /** The loop is at `i`: it took the candidates so far, each called for. */
  ghost predicate Picked(survey: Survey, i: nat, evictions: seq<Entry>, freed: nat, quota: nat, pins: Pins) {
    && i <= |survey.entries|
    && evictions == Candidates(survey.entries[..i], pins)
    && freed == Min(Total(evictions), U64_MAX)
    && CalledFor(evictions, survey.usedBytes, quota)
  }

  lemma PicksOn(survey: Survey, i: nat, evictions: seq<Entry>, freed: nat, quota: nat, pins: Pins)
    requires Picked(survey, i, evictions, freed, quota, pins) && i < |survey.entries|
    requires survey.usedBytes - Total(evictions) > quota || survey.entries[i].kind.Garbage?
    ensures var entry := survey.entries[i];
            if IsCandidate(entry, pins)
            then Picked(survey, i + 1, evictions + [entry], SaturatingAdd(freed, entry.size), quota, pins)
            else Picked(survey, i + 1, evictions, freed, quota, pins)
  {
    var entry := survey.entries[i];
    FilterPush(survey.entries, i, CandidateUnder(pins));
    if IsCandidate(entry, pins) {
      CalledForPush(evictions, entry, survey.usedBytes, quota);
      FreedPush(evictions, entry);
    }
  }

  /** The plan's loop. */
  method PickEvictions(survey: Survey, quota: nat, pins: Pins) returns (evictions: seq<Entry>, freed: nat)
    requires InOrder(survey.entries) && survey.usedBytes <= U64_MAX
    ensures IsPlan(evictions, survey, quota, pins)
    ensures freed == Min(Total(evictions), U64_MAX)
  {
    var es, i := survey.entries, 0;
    freed, evictions := 0, [];
    while i < |es|
      invariant Picked(survey, i, evictions, freed, quota, pins)
    {
      SaturationIsHarmless(survey.usedBytes, Total(evictions), quota);
      var over := SaturatingSub(survey.usedBytes, freed) > quota;
      if !over && !es[i].kind.Garbage? {
        break;
      }
      var entry := es[i];
      PicksOn(survey, i, evictions, freed, quota, pins);
      i := i + 1;
      if !IsCandidate(entry, pins) {
        continue;
      }
      freed := SaturatingAdd(freed, entry.size);
      evictions := evictions + [entry];
    }
    PlanEnds(survey, i, quota, pins);
  }

  lemma SaturationIsHarmless(used: nat, freed: nat, quota: nat)
    requires used <= U64_MAX
    ensures SaturatingSub(used, Min(freed, U64_MAX)) > quota <==> used - freed > quota
    ensures Overage(SaturatingSub(used, Min(freed, U64_MAX)), quota) == Overage(used - freed, quota)
  {
  }

  /** Where the loop stops, at `i`, everything it took so far is a plan. */
  lemma PlanEnds(survey: Survey, i: nat, quota: nat, pins: Pins)
    requires InOrder(survey.entries) && i <= |survey.entries|
    requires CalledFor(Candidates(survey.entries[..i], pins), survey.usedBytes, quota)
    requires i < |survey.entries| ==>
               && IsLive(survey.entries[i])
               && survey.usedBytes - Total(Candidates(survey.entries[..i], pins)) <= quota
    ensures IsPlan(Candidates(survey.entries[..i], pins), survey, quota, pins)
  {
    var es := survey.entries;
    assert es == es[..i] + es[i..];
    FilterAppend(es[..i], es[i..], CandidateUnder(pins));
    if i < |es| {
      LiveAfter(es, i, pins);
    }
  }

  /** In sweep order no garbage follows a live entry, so all of it is in the head up to one. */
  lemma LiveAfter(es: seq<Entry>, i: nat, pins: Pins)
    requires InOrder(es) && i < |es| && IsLive(es[i])
    ensures forall e :: e in Candidates(es[i..], pins) ==> IsLive(e)
  {
    forall e | e in Candidates(es[i..], pins) ensures IsLive(e) {
      FilterMember(es[i..], CandidateUnder(pins), e);
      var j :| i <= j < |es| && es[j] == e;
      if j > i { assert NotAfter(es[i], es[j]); }
    }
  }
}
