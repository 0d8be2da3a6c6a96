/** The text layer of a model URI: `scheme://key=value&key=value`. */
module UriText {
  import opened Prelude

  datatype Pair = Pair(key: string, value: string)

  datatype PairsError =
    | MalformedPair(segment: string)
    | EmptyKey
    | DuplicateKey(key: string)

  datatype PairsResult = Pairs(items: seq<Pair>) | Broken(error: PairsError)

  // ---------------------------------------------------------------- cutting

  /** Where `c` first is, or the length. */
  function IndexOf(s: string, c: char): (i: nat)
    ensures i <= |s|
    ensures i < |s| ==> s[i] == c
    ensures c !in s[..i]
  {
    if s == "" || s[0] == c then 0
    else
      var i := 1 + IndexOf(s[1..], c);
      assert s[..i] == [s[0]] + s[1..][..i - 1];
      i
  }

  /** All the segments between `c`s; always at least one. */
  function Split(s: string, c: char): (parts: seq<string>)
    ensures |parts| > 0
    ensures forall p :: p in parts ==> c !in p
    decreases |s|
  {
    var i := IndexOf(s, c);
    if i == |s| then
      assert s == s[..i];
      [s]
    else [s[..i]] + Split(s[i + 1..], c)
  }

  function Join(parts: seq<string>, c: char): string {
    if parts == [] then ""
    else if |parts| == 1 then parts[0]
    else parts[0] + [c] + Join(parts[1..], c)
  }

  lemma IndexOfUnique(s: string, c: char, i: nat)
    requires i <= |s| && c !in s[..i] && (i < |s| ==> s[i] == c)
    ensures IndexOf(s, c) == i
  {
  }

  lemma {:induction false} SplitOfJoin(parts: seq<string>, c: char)
    requires parts != [] && forall p :: p in parts ==> c !in p
    ensures Split(Join(parts, c), c) == parts
  {
    var s := Join(parts, c);
    if |parts| == 1 {
      assert s[..|s|] == s;
      IndexOfUnique(s, c, |s|);
    } else {
      var n := |parts[0]|;
      assert s[..n] == parts[0] && s[n + 1..] == Join(parts[1..], c);
      IndexOfUnique(s, c, n);
      SplitOfJoin(parts[1..], c);
    }
  }

  // ---------------------------------------------------------------- pairs

  function Text(p: Pair): string {
    p.key + "=" + p.value
  }

  function Texts(items: seq<Pair>): seq<string> {
    if items == [] then [] else [Text(items[0])] + Texts(items[1..])
  }

  predicate HasKey(items: seq<Pair>, key: string) {
    exists p :: p in items && p.key == key
  }

  /** Adds one segment to the pairs before it. */
  function AddSegment(items: seq<Pair>, segment: string): PairsResult {
    var i := IndexOf(segment, '=');
    if i == |segment| then Broken(MalformedPair(segment))
    else
      var p := Pair(segment[..i], segment[i + 1..]);
      if p.key == "" then Broken(EmptyKey)
      else if HasKey(items, p.key) then Broken(DuplicateKey(p.key))
      else Pairs(items + [p])
  }

  function AddSegments(items: seq<Pair>, segments: seq<string>): PairsResult
    decreases |segments|
  {
    if segments == [] then Pairs(items)
    else
      match AddSegment(items, segments[0])
      case Broken(e) => Broken(e)
      case Pairs(more) => AddSegments(more, segments[1..])
  }

  function ParsePairs(body: string): PairsResult {
    if body == "" then Pairs([]) else AddSegments([], Split(body, '&'))
  }

  /** Pairs a URI body can carry: distinct keys, no separator inside a key or a value. */
  ghost predicate Carriable(items: seq<Pair>) {
    && (forall p :: p in items ==> CarriablePair(p))
    && DistinctKeys(items)
  }

  predicate CarriablePair(p: Pair) {
    p.key != "" && '=' !in p.key && '&' !in p.key && '&' !in p.value
  }

  ghost predicate DistinctKeys(items: seq<Pair>) {
    forall i, j :: 0 <= i < j < |items| ==> items[i].key != items[j].key
  }

  lemma AddText(items: seq<Pair>, p: Pair)
    requires CarriablePair(p) && !HasKey(items, p.key)
    ensures AddSegment(items, Text(p)) == Pairs(items + [p])
  {
    var s := Text(p);
    assert s[..|p.key|] == p.key && s[|p.key| + 1..] == p.value;
    IndexOfUnique(s, '=', |p.key|);
  }

  lemma NextIsNew(items: seq<Pair>, more: seq<Pair>)
    requires Carriable(items + more) && more != []
    ensures CarriablePair(more[0]) && !HasKey(items, more[0].key)
  {
    var all := items + more;
    assert all[|items|] == more[0];
    forall p | p in items ensures p.key != more[0].key {
      var i :| 0 <= i < |items| && items[i] == p;
      assert all[i] == p;
    }
  }

  lemma {:induction false} AddTexts(items: seq<Pair>, more: seq<Pair>)
    requires Carriable(items + more)
    ensures AddSegments(items, Texts(more)) == Pairs(items + more)
    decreases |more|
  {
    if more == [] {
      assert items + more == items;
    } else {
      NextIsNew(items, more);
      AddText(items, more[0]);
      assert Texts(more)[1..] == Texts(more[1..]);
      Shift(items, more);
      AddTexts(items + [more[0]], more[1..]);
    }
  }

  lemma Shift(items: seq<Pair>, more: seq<Pair>)
    requires more != []
    ensures (items + [more[0]]) + more[1..] == items + more
  {
  }

  lemma {:induction false} TextsHaveNoSeparator(items: seq<Pair>)
    requires forall p :: p in items ==> CarriablePair(p)
    ensures forall t :: t in Texts(items) ==> '&' !in t
  {
    if items != [] {
      assert CarriablePair(items[0]);
      TextsHaveNoSeparator(items[1..]);
    }
  }

  /** Reading back what joining wrote. */
  lemma ParseOfJoin(items: seq<Pair>)
    requires items != [] && Carriable(items)
    ensures ParsePairs(Join(Texts(items), '&')) == Pairs(items)
  {
    var texts := Texts(items);
    TextsHaveNoSeparator(items);
    SplitOfJoin(texts, '&');
    JoinNotEmpty(texts);
    assert [] + items == items;
    AddTexts([], items);
  }

  lemma JoinNotEmpty(texts: seq<string>)
    requires texts != [] && texts[0] != ""
    ensures Join(texts, '&') != ""
  {
  }

  lemma {:induction false} AddSegmentsCarries(items: seq<Pair>, segments: seq<string>)
    requires Carriable(items)
    requires forall s :: s in segments ==> '&' !in s
    requires AddSegments(items, segments).Pairs?
    ensures Carriable(AddSegments(items, segments).items)
    decreases |segments|
  {
    if segments != [] {
      AddSegmentCarries(items, segments[0]);
      AddSegmentsCarries(AddSegment(items, segments[0]).items, segments[1..]);
    }
  }

  lemma AddSegmentCarries(items: seq<Pair>, segment: string)
    requires Carriable(items) && '&' !in segment
    requires AddSegment(items, segment).Pairs?
    ensures Carriable(AddSegment(items, segment).items)
  {
  }

  /** Whatever parses is carriable. */
  lemma ParsedIsCarriable(body: string)
    requires ParsePairs(body).Pairs?
    ensures Carriable(ParsePairs(body).items)
  {
    if body != "" {
      AddSegmentsCarries([], Split(body, '&'));
    }
  }

  // ---------------------------------------------------------------- the scheme separator

  const SEPARATOR := "://"

  predicate SeparatorAt(s: string, i: nat) {
    i + 3 <= |s| && s[i..i + 3] == SEPARATOR
  }

  /** Where `://` first is. */
  function FindSeparator(s: string, from: nat): (r: Option<nat>)
    requires from <= |s|
    ensures r.Some? ==> from <= r.value && SeparatorAt(s, r.value)
    decreases |s| - from
  {
    if from + 3 > |s| then None
    else if SeparatorAt(s, from) then Some(from)
    else FindSeparator(s, from + 1)
  }

  lemma {:induction false} FindFirst(s: string, from: nat, i: nat)
    requires from <= i && SeparatorAt(s, i)
    requires forall k :: from <= k < i ==> s[k] != ':'
    ensures FindSeparator(s, from) == Some(i)
    decreases i - from
  {
    if from < i {
      assert s[from..from + 3][0] == s[from];
      FindFirst(s, from + 1, i);
    }
  }

  /** The separator found is the one written after a scheme with no colon. */
  lemma SeparatorAfter(scheme: string, body: string)
    requires ':' !in scheme
    ensures FindSeparator(scheme + SEPARATOR + body, 0) == Some(|scheme|)
  {
    var s := scheme + SEPARATOR + body;
    assert s[|scheme|..|scheme| + 3] == SEPARATOR;
    forall k | 0 <= k < |scheme| ensures s[k] != ':' {
      assert s[k] == scheme[k];
    }
    FindFirst(s, 0, |scheme|);
  }
}
