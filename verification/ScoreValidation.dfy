/** The repair of an evaluation payload: one completion for each id, the last one given. */
module ScoreValidation {
  import opened Prelude

  const MAX_LISTED_DUPLICATES := 10

  /** A completion: its string `id`, if it has one, and the rest of it. */
  datatype Completion = Completion(id: Option<string>, rest: string)

  datatype DedupReport = DedupReport(benchmarkId: string, before: nat, after: nat,
                                     listedDuplicateIds: seq<string>, distinctDuplicates: nat)

  datatype Repair = Done(report: Option<DedupReport>) | CompletionMissingId(benchmarkId: string)

  ghost predicate AllKeyed(es: seq<Completion>) {
    forall e :: e in es ==> e.id.Some?
  }

  // ---------------------------------------------------------------- last occurrences

  predicate IsLast(es: seq<Completion>, i: nat)
    requires i < |es|
  {
    forall j :: i < j < |es| ==> es[j].id != es[i].id
  }

  /** The positions from `i` on that hold the last completion of an id, in order. */
  function LastsFrom(es: seq<Completion>, i: nat): seq<nat>
    requires i <= |es|
    decreases |es| - i
  {
    if i == |es| then [] else (if IsLast(es, i) then [i] else []) + LastsFrom(es, i + 1)
  }

  lemma {:induction false} LastsMembers(es: seq<Completion>, i: nat)
    requires i <= |es|
    ensures forall k :: k in LastsFrom(es, i) <==> i <= k < |es| && IsLast(es, k)
    decreases |es| - i
  {
    if i < |es| {
      LastsMembers(es, i + 1);
      forall k ensures k in LastsFrom(es, i) <==> i <= k < |es| && IsLast(es, k) {
        assert k in LastsFrom(es, i) <==> k in LastsFrom(es, i + 1) || (k == i && IsLast(es, i));
      }
    }
  }

  lemma {:induction false} LastsAreExact(es: seq<Completion>, i: nat)
    requires i <= |es|
    ensures forall k :: k in LastsFrom(es, i) <==> i <= k < |es| && IsLast(es, k)
    ensures forall a, b :: 0 <= a < b < |LastsFrom(es, i)| ==> LastsFrom(es, i)[a] < LastsFrom(es, i)[b]
    decreases |es| - i
  {
    LastsMembers(es, i);
    if i < |es| {
      LastsAreExact(es, i + 1);
      var rest := LastsFrom(es, i + 1);
      assert forall b :: 0 <= b < |rest| ==> rest[b] in rest;
    }
  }

  /** The completions at those positions. */
  function KeptFrom(es: seq<Completion>, i: nat): seq<Completion>
    requires i <= |es|
    decreases |es| - i
  {
    if i == |es| then [] else (if IsLast(es, i) then [es[i]] else []) + KeptFrom(es, i + 1)
  }

  lemma {:induction false} KeptIsRestriction(es: seq<Completion>, i: nat)
    requires i <= |es|
    ensures |KeptFrom(es, i)| == |LastsFrom(es, i)|
    ensures forall k :: 0 <= k < |LastsFrom(es, i)| ==>
              i <= LastsFrom(es, i)[k] < |es| && KeptFrom(es, i)[k] == es[LastsFrom(es, i)[k]]
    decreases |es| - i
  {
    if i < |es| {
      KeptIsRestriction(es, i + 1);
      var at, kept, first := LastsFrom(es, i), KeptFrom(es, i), if IsLast(es, i) then 1 else 0;
      assert at[first..] == LastsFrom(es, i + 1) && kept[first..] == KeptFrom(es, i + 1);
      forall k | 0 <= k < |at| ensures i <= at[k] < |es| && kept[k] == es[at[k]] {
        if k >= first {
          assert at[k] == LastsFrom(es, i + 1)[k - first] && kept[k] == KeptFrom(es, i + 1)[k - first];
        }
      }
    }
  }

  function Ids(es: seq<Completion>): set<Option<string>> {
    set e | e in es :: e.id
  }

  ghost predicate UniqueIds(es: seq<Completion>) {
    forall i, j :: 0 <= i < j < |es| ==> es[i].id != es[j].id
  }

  /** The repaired list has one completion for each id of the given list, and no other. */
  lemma KeptIsUnique(es: seq<Completion>)
    ensures UniqueIds(KeptFrom(es, 0))
  {
    var kept, at := KeptFrom(es, 0), LastsFrom(es, 0);
    KeptIsRestriction(es, 0);
    LastsAreExact(es, 0);
    forall a, b | 0 <= a < b < |kept| ensures kept[a].id != kept[b].id {
      assert at[a] in at && at[a] < at[b];
    }
  }

  lemma {:induction false} LastOf(es: seq<Completion>, i: nat) returns (j: nat)
    requires i < |es|
    ensures i <= j < |es| && IsLast(es, j) && es[j].id == es[i].id
    decreases |es| - i
  {
    if IsLast(es, i) {
      j := i;
    } else {
      var k :| i < k < |es| && es[k].id == es[i].id;
      j := LastOf(es, k);
    }
  }

  lemma KeptCovers(es: seq<Completion>)
    ensures Ids(KeptFrom(es, 0)) == Ids(es)
  {
    var kept, at := KeptFrom(es, 0), LastsFrom(es, 0);
    KeptIsRestriction(es, 0);
    LastsAreExact(es, 0);
    forall e | e in es ensures e.id in Ids(kept) {
      var i :| 0 <= i < |es| && es[i] == e;
      var j := LastOf(es, i);
      assert j in at;
      var k :| 0 <= k < |at| && at[k] == j;
      assert kept[k] in kept && kept[k].id == e.id;
    }
    forall e | e in kept ensures e.id in Ids(es) {
      var k :| 0 <= k < |kept| && kept[k] == e;
      assert es[at[k]] == e;
    }
  }

  lemma {:induction false} KeptAll(es: seq<Completion>, i: nat)
    requires i <= |es| && UniqueIds(es)
    ensures KeptFrom(es, i) == es[i..]
    decreases |es| - i
  {
    if i < |es| {
      KeptAll(es, i + 1);
      assert es[i..] == [es[i]] + es[i + 1..];
    }
  }

  /** A second repair changes nothing, and so does a first where ids are unique already. */
  lemma RepairIsIdempotent(es: seq<Completion>)
    ensures KeptFrom(KeptFrom(es, 0), 0) == KeptFrom(es, 0)
    ensures KeptFrom(es, 0) == es <==> UniqueIds(es)
  {
    var kept := KeptFrom(es, 0);
    KeptIsUnique(es);
    KeptAll(kept, 0);
    assert kept[0..] == kept;
    if UniqueIds(es) {
      KeptAll(es, 0);
      assert es[0..] == es;
    }
  }

  // ---------------------------------------------------------------- the duplicate ids

  /** Ids with a completion at `i` or later that is not their last. */
  ghost function DuplicatesFrom(es: seq<Completion>, i: nat): set<string> {
    set k | i <= k < |es| && es[k].id.Some? && !IsLast(es, k) :: es[k].id.value
  }

  lemma DuplicatesStep(es: seq<Completion>, i: nat)
    requires i < |es| && AllKeyed(es)
    ensures es[i].id.Some?
    ensures DuplicatesFrom(es, i)
            == DuplicatesFrom(es, i + 1) + (if IsLast(es, i) then {} else {es[i].id.value})
  {
  }

  lemma NoDuplicates(es: seq<Completion>)
    requires AllKeyed(es) && DuplicatesFrom(es, 0) == {}
    ensures UniqueIds(es)
  {
    forall i, j | 0 <= i < j < |es| ensures es[i].id != es[j].id {
      assert es[i] in es;
      assert es[i].id.value !in DuplicatesFrom(es, 0);
    }
  }

  predicate Before(a: string, b: string) {
    if b == "" then false
    else if a == "" then true
    else a[0] < b[0] || (a[0] == b[0] && Before(a[1..], b[1..]))
  }

  lemma {:induction false} BeforeIsTotal(a: string, b: string)
    ensures Before(a, b) || a == b || Before(b, a)
  {
    if a != "" && b != "" {
      BeforeIsTotal(a[1..], b[1..]);
      assert a == [a[0]] + a[1..] && b == [b[0]] + b[1..];
    }
  }

  lemma {:induction false} BeforeIsTransitive(a: string, b: string, c: string)
    requires Before(a, b) && Before(b, c)
    ensures Before(a, c)
  {
    if a != "" && a[0] == b[0] && b[0] == c[0] {
      BeforeIsTransitive(a[1..], b[1..], c[1..]);
    }
  }

  ghost predicate Increasing(ids: seq<string>) {
    forall i, j :: 0 <= i < j < |ids| ==> Before(ids[i], ids[j])
  }

  function Insert(id: string, ids: seq<string>): seq<string> {
    if ids == [] || Before(id, ids[0]) then [id] + ids
    else if id == ids[0] then ids
    else [ids[0]] + Insert(id, ids[1..])
  }

  function Members(ids: seq<string>): set<string> {
    set id | id in ids
  }

  lemma {:induction false} InsertMembers(id: string, ids: seq<string>)
    ensures Members(Insert(id, ids)) == Members(ids) + {id}
  {
    if ids == [] || Before(id, ids[0]) || id == ids[0] {
    } else {
      InsertMembers(id, ids[1..]);
      assert ids == [ids[0]] + ids[1..];
      assert Members(ids) == {ids[0]} + Members(ids[1..]);
      assert Members([ids[0]] + Insert(id, ids[1..])) == {ids[0]} + Members(Insert(id, ids[1..]));
    }
  }

  lemma PrependIncreasing(id: string, ids: seq<string>)
    requires Increasing(ids) && forall x :: x in ids ==> Before(id, x)
    ensures Increasing([id] + ids)
  {
  }

  lemma {:induction false} InsertKeepsIncreasing(id: string, ids: seq<string>)
    requires Increasing(ids)
    ensures Increasing(Insert(id, ids))
  {
    if ids == [] || id == ids[0] {
    } else if Before(id, ids[0]) {
      forall x | x in ids ensures Before(id, x) {
        var j :| 0 <= j < |ids| && ids[j] == x;
        if j > 0 { BeforeIsTransitive(id, ids[0], ids[j]); }
      }
      PrependIncreasing(id, ids);
    } else {
      BeforeIsTotal(id, ids[0]);
      InsertKeepsIncreasing(id, ids[1..]);
      InsertMembers(id, ids[1..]);
      var rest := Insert(id, ids[1..]);
      forall x | x in rest ensures Before(ids[0], x) {
        assert x in Members(rest);
        assert x == id || x in Members(ids[1..]);
      }
      PrependIncreasing(ids[0], rest);
    }
  }

  /** Sorted, each id once. */
  function SortDedup(ids: seq<string>): seq<string> {
    if ids == [] then [] else Insert(ids[0], SortDedup(ids[1..]))
  }

  lemma {:induction false} SortDedupIncreasing(ids: seq<string>)
    ensures Increasing(SortDedup(ids))
  {
    if ids != [] {
      SortDedupIncreasing(ids[1..]);
      InsertKeepsIncreasing(ids[0], SortDedup(ids[1..]));
    }
  }

  lemma {:induction false} SortDedupMembers(ids: seq<string>)
    ensures Members(SortDedup(ids)) == Members(ids)
  {
    if ids != [] {
      SortDedupMembers(ids[1..]);
      InsertMembers(ids[0], SortDedup(ids[1..]));
      assert ids == [ids[0]] + ids[1..];
      assert Members(ids) == {ids[0]} + Members(ids[1..]);
    }
  }

  lemma SortDedupIsExact(ids: seq<string>)
    ensures Increasing(SortDedup(ids))
    ensures Members(SortDedup(ids)) == Members(ids)
    ensures |SortDedup(ids)| == |Members(ids)|
  {
    SortDedupIncreasing(ids);
    SortDedupMembers(ids);
    IncreasingCount(SortDedup(ids));
  }

  lemma BeforeIsStrict(a: string)
    ensures !Before(a, a)
  {
    if a != "" { BeforeIsStrict(a[1..]); }
  }

  lemma {:induction false} IncreasingCount(ids: seq<string>)
    requires Increasing(ids)
    ensures |Members(ids)| == |ids|
  {
    if ids != [] {
      IncreasingCount(ids[1..]);
      forall j | 0 < j < |ids| ensures ids[j] != ids[0] {
        BeforeIsStrict(ids[0]);
      }
      assert ids[0] !in Members(ids[1..]);
      assert Members(ids) == Members(ids[1..]) + {ids[0]};
    }
  }

  // ---------------------------------------------------------------- the repair

  function Reversed(es: seq<Completion>): (r: seq<Completion>)
    ensures |r| == |es|
  {
    if es == [] then [] else Reversed(es[1..]) + [es[0]]
  }

  lemma {:induction false} ReversedPush(es: seq<Completion>, e: Completion)
    ensures Reversed(es + [e]) == [e] + Reversed(es)
  {
    if es != [] {
      assert (es + [e])[1..] == es[1..] + [e];
      ReversedPush(es[1..], e);
    }
  }

  function Listed(ids: seq<string>): seq<string> {
    if |ids| <= MAX_LISTED_DUPLICATES then ids else ids[..MAX_LISTED_DUPLICATES]
  }

  /** The ids of the completions from `i` on. */
  ghost function SeenFrom(es: seq<Completion>, i: nat): set<string> {
    set k | i <= k < |es| && es[k].id.Some? :: es[k].id.value
  }

  lemma SeenStep(es: seq<Completion>, i: nat)
    requires i < |es| && AllKeyed(es)
    ensures es[i].id.Some?
    ensures es[i].id.value in SeenFrom(es, i + 1) <==> !IsLast(es, i)
    ensures SeenFrom(es, i) == SeenFrom(es, i + 1) + {es[i].id.value}
  {
  }

  lemma AllOrFewer(es: seq<Completion>, duplicates: seq<string>)
    requires AllKeyed(es) && Members(duplicates) == DuplicatesFrom(es, 0)
    requires |KeptFrom(es, 0)| + |duplicates| == |es|
    ensures duplicates == [] <==> KeptFrom(es, 0) == es
  {
    if duplicates == [] {
      NoDuplicates(es);
      RepairIsIdempotent(es);
    }
  }

  /** Walks back from the end, keeping each id the first time it is seen. */
  method LastWins(es: seq<Completion>) returns (kept: seq<Completion>, duplicates: seq<string>)
    requires AllKeyed(es)
    ensures kept == KeptFrom(es, 0)
    ensures Members(duplicates) == DuplicatesFrom(es, 0)
    ensures duplicates == [] <==> kept == es
  {
    var seen: set<string>, back, i := {}, [], |es|;
    duplicates := [];
    while i > 0
      invariant 0 <= i <= |es|
      invariant seen == SeenFrom(es, i)
      invariant Reversed(back) == KeptFrom(es, i)
      invariant Members(duplicates) == DuplicatesFrom(es, i)
      invariant |back| + |duplicates| == |es| - i
    {
      i := i - 1;
      SeenStep(es, i);
      DuplicatesStep(es, i);
      var id := es[i].id.value;
      if id !in seen {
        ReversedPush(back, es[i]);
        back := back + [es[i]];
      } else {
        MembersPush(duplicates, id);
        duplicates := duplicates + [id];
      }
      seen := seen + {id};
    }
    kept := Reversed(back);
    AllOrFewer(es, duplicates);
  }

  lemma MembersPush(ids: seq<string>, id: string)
    ensures Members(ids + [id]) == Members(ids) + {id}
  {
  }

  /** The report for `es`: exact counts, and the first of the ids that occur more than once, in order. */
  ghost predicate Reports(report: DedupReport, benchmarkId: string, es: seq<Completion>) {
    && report.benchmarkId == benchmarkId
    && report.before == |es|
    && report.after == |KeptFrom(es, 0)|
    && report.distinctDuplicates == |DuplicatesFrom(es, 0)|
    && exists sorted: seq<string> :: ListsFirst(report.listedDuplicateIds, sorted, DuplicatesFrom(es, 0))
  }

  ghost predicate ListsFirst(listed: seq<string>, sorted: seq<string>, ids: set<string>) {
    && Increasing(sorted)
    && Members(sorted) == ids
    && listed == Listed(sorted)
  }

  method MakeReport(benchmarkId: string, es: seq<Completion>, after: nat, duplicates: seq<string>)
    returns (report: DedupReport)
    requires after == |KeptFrom(es, 0)| && Members(duplicates) == DuplicatesFrom(es, 0)
    ensures Reports(report, benchmarkId, es)
  {
    var sorted := SortDedup(duplicates);
    SortDedupIsExact(duplicates);
    report := DedupReport(benchmarkId, |es|, after, Listed(sorted), |sorted|);
    assert ListsFirst(report.listedDuplicateIds, sorted, DuplicatesFrom(es, 0));
  }

  class Payload {
    var benchmarkId: Option<string>

    /** `None` when the payload has no array under `completions`. */
    var completions: Option<seq<Completion>>

    constructor (benchmarkId: Option<string>, completions: Option<seq<Completion>>)
      ensures this.benchmarkId == benchmarkId && this.completions == completions
    {
      this.benchmarkId, this.completions := benchmarkId, completions;
    }

    function Name(): string
      reads this
    {
      match benchmarkId case None => "<unknown>" case Some(id) => id
    }

    method DedupeCompletionIds() returns (r: Repair)
      modifies this`completions
      ensures completions.None? <==> old(completions).None?
      ensures completions.None? ==> r == Done(None)
      ensures completions.Some? && !AllKeyed(old(completions).value) ==>
                r == CompletionMissingId(Name()) && completions == old(completions)
      ensures completions.Some? && AllKeyed(old(completions).value) ==>
                && completions == Some(KeptFrom(old(completions).value, 0))
                && r.Done?
                && (r.report == None <==> completions == old(completions))
                && (r.report.Some? ==> Reports(r.report.value, Name(), old(completions).value))
    {
      if completions.None? {
        return Done(None);
      }
      var es := completions.value;
      for i := 0 to |es|
        invariant completions == old(completions)
        invariant forall k :: 0 <= k < i ==> es[k].id.Some?
      {
        if es[i].id.None? {
          assert es[i] in es;
          return CompletionMissingId(Name());
        }
      }
      var kept, duplicates := LastWins(es);
      completions := Some(kept);
      if duplicates == [] {
        return Done(None);
      }
      var report := MakeReport(Name(), es, |kept|, duplicates);
      return Done(Some(report));
    }
  }

  /** What the report lists is settled by what it must be. */
  lemma {:induction false} SortedIsUnique(a: seq<string>, b: seq<string>)
    requires Increasing(a) && Increasing(b) && Members(a) == Members(b)
    ensures a == b
  {
    IncreasingCount(a);
    IncreasingCount(b);
    if a != [] {
      HeadIsLeast(a, b[0]);
      HeadIsLeast(b, a[0]);
      if a[0] != b[0] {
        BeforeIsTransitive(a[0], b[0], a[0]);
        BeforeIsStrict(a[0]);
      }
      TailMembers(a);
      TailMembers(b);
      SortedIsUnique(a[1..], b[1..]);
    }
  }

  lemma HeadIsLeast(ids: seq<string>, id: string)
    requires Increasing(ids) && ids != [] && id in Members(ids)
    ensures id == ids[0] || Before(ids[0], id)
  {
  }

  lemma TailMembers(ids: seq<string>)
    requires Increasing(ids) && ids != []
    ensures Members(ids[1..]) == Members(ids) - {ids[0]}
  {
    BeforeIsStrict(ids[0]);
    assert ids == [ids[0]] + ids[1..];
  }
}
