/** The URI parser and printer as they work: pairs taken out of a list one by one, and a body that
  * grows pair by pair. Each method is proved to compute what `ModelUri` says. */
module UriCode {
  import opened Prelude
  import opened UriText
  import opened ModelUri

  // ---------------------------------------------------------------- taking pairs

  function Without(items: seq<Pair>, keys: seq<Key>): seq<Pair> {
    if items == [] then []
    else (if IsClaimed(items[0].key, keys) then [] else [items[0]]) + Without(items[1..], keys)
  }

  lemma {:induction false} WithoutNone(items: seq<Pair>)
    ensures Without(items, []) == items
  {
    if items != [] {
      WithoutNone(items[1..]);
    }
  }

  lemma {:induction false} WithoutTwice(items: seq<Pair>, keys: seq<Key>, key: Key)
    ensures Without(Without(items, keys), [key]) == Without(items, keys + [key])
  {
    if items != [] {
      WithoutTwice(items[1..], keys, key);
      var rest := Without(items[1..], keys);
      assert IsClaimed(items[0].key, keys + [key]) <==> IsClaimed(items[0].key, keys) || IsClaimed(items[0].key, [key]);
      assert ([items[0]] + rest)[1..] == rest && [] + rest == rest;
    }
  }

  lemma {:induction false} LookupWithout(items: seq<Pair>, keys: seq<Key>, key: Key)
    requires key !in keys
    ensures Lookup(Without(items, keys), key) == Lookup(items, key)
  {
    if items != [] {
      LookupWithout(items[1..], keys, key);
      var rest := Without(items[1..], keys);
      if IsClaimed(items[0].key, keys) {
        var k :| k in keys && KeyText(k) == items[0].key;
        if KeyText(key) == KeyText(k) { KeyTextInjective(key, k); }
        assert [] + rest == rest;
      } else {
        assert ([items[0]] + rest)[1..] == rest;
      }
    }
  }

  lemma {:induction false} NothingLeft(items: seq<Pair>, scheme: Scheme, keys: seq<Key>)
    ensures var left := Without(items, keys);
            NoOther(items, scheme, keys) == if left == [] then Ok(()) else Err(UnknownKey(scheme, left[0].key))
  {
    if items != [] {
      NothingLeft(items[1..], scheme, keys);
    }
  }

  /** Removing the pair at `i` is leaving out its key, keys being distinct. */
  lemma {:induction false} RemoveAt(items: seq<Pair>, i: nat, key: Key)
    requires DistinctKeys(items) && i < |items| && items[i].key == KeyText(key)
    ensures Without(items, [key]) == items[..i] + items[i + 1..]
    ensures Lookup(items, key) == Some(items[i].value)
  {
    assert IsClaimed(KeyText(key), [key]) by { assert key in [key]; }
    if i == 0 {
      NotThere(items[1..], key);
    } else {
      assert items[0].key != items[i].key;
      assert !IsClaimed(items[0].key, [key]);
      RemoveAt(items[1..], i - 1, key);
      assert items[..i] == [items[0]] + items[1..][..i - 1];
    }
  }

  lemma {:induction false} NotThere(items: seq<Pair>, key: Key)
    requires forall p :: p in items ==> p.key != KeyText(key)
    ensures Without(items, [key]) == items && Lookup(items, key) == None
  {
    if items != [] {
      assert !IsClaimed(items[0].key, [key]);
      NotThere(items[1..], key);
    }
  }

  lemma DistinctWithout(items: seq<Pair>, i: nat)
    requires DistinctKeys(items) && i < |items|
    ensures DistinctKeys(items[..i] + items[i + 1..])
  {
  }

  /** Where `key` is, or the length. */
  method Position(items: seq<Pair>, key: Key) returns (i: nat)
    ensures i <= |items|
    ensures i < |items| ==> items[i].key == KeyText(key)
    ensures i == |items| ==> forall p :: p in items ==> p.key != KeyText(key)
  {
    i := 0;
    while i < |items| && items[i].key != KeyText(key)
      invariant i <= |items|
      invariant forall k :: 0 <= k < i ==> items[k].key != KeyText(key)
    {
      i := i + 1;
    }
  }

  class PairList {
    const scheme: Scheme
    var items: seq<Pair>
    ghost const all: seq<Pair>
    ghost var taken: seq<Key>

    ghost predicate Valid()
      reads this
    {
      DistinctKeys(items) && items == Without(all, taken)
    }

    constructor (scheme: Scheme, items: seq<Pair>)
      requires DistinctKeys(items)
      ensures Valid() && this.scheme == scheme && all == items && taken == []
    {
      this.scheme, this.items, this.all, this.taken := scheme, items, items, [];
      WithoutNone(items);
    }

    method Take(key: Key) returns (v: Option<string>)
      requires Valid() && key !in taken
      modifies this
      ensures Valid() && taken == old(taken) + [key]
      ensures v == Lookup(all, key)
    {
      LookupWithout(all, taken, key);
      WithoutTwice(all, taken, key);
      var i := Position(items, key);
      if i < |items| {
        RemoveAt(items, i, key);
        DistinctWithout(items, i);
        v := Some(items[i].value);
        items := items[..i] + items[i + 1..];
      } else {
        NotThere(items, key);
        v := None;
      }
      taken := taken + [key];
    }

    method Require(key: Key) returns (r: Result<string>)
      requires Valid() && key !in taken
      modifies this
      ensures Valid() && taken == old(taken) + [key]
      ensures r == ModelUri.Require(all, scheme, key)
    {
      var v := Take(key);
      r := match v case None => Err(MissingKey(scheme, key)) case Some(t) => Ok(t);
    }

    method Finish() returns (r: Result<()>)
      requires Valid()
      ensures r == NoOther(all, scheme, taken)
    {
      NothingLeft(all, scheme, taken);
      r := if items == [] then Ok(()) else Err(UnknownKey(scheme, items[0].key));
    }
  }

  // ---------------------------------------------------------------- parsing

  method ParsePairList(body: string) returns (r: PairsResult)
    ensures r == ParsePairs(body)
    ensures r.Pairs? ==> DistinctKeys(r.items)
  {
    if body == "" {
      return Pairs([]);
    }
    var segments, items, i := Split(body, '&'), [], 0;
    while i < |segments|
      invariant i <= |segments|
      invariant AddSegments(items, segments[i..]) == ParsePairs(body)
    {
      match AddSegment(items, segments[i]) {
        case Broken(e) => return Broken(e);
        case Pairs(more) => items := more;
      }
      assert segments[i..][1..] == segments[i + 1..];
      i := i + 1;
    }
    ParsedIsCarriable(body);
    return Pairs(items);
  }

  method ParseTextHf(rules: Rules, p: PairList, repo: string) returns (r: Result<TextSource>)
    requires p.Valid() && p.taken == [Repo, Url] && p.scheme == GgufTextScheme
    requires Lookup(p.all, Repo) == Some(repo) && Lookup(p.all, Url) == None
    modifies p
    ensures r == ReadText(rules, p.all)
  {
    var rev := p.Take(Rev);
    var path :- p.Require(Path);
    var sha := p.Take(Sha);
    assert p.taken == TEXT_HF_KEYS;
    var repo' :- HfRepoOf(rules, repo, rev);
    var path' :- Subpath(rules, Path, path);
    var sha' :- OptSha(rules, Sha, sha);
    var _ :- p.Finish();
    return Ok(TextHf(repo', path', sha'));
  }

  method ParseTextUrl(rules: Rules, p: PairList, url: string) returns (r: Result<TextSource>)
    requires p.Valid() && p.taken == [Repo, Url] && p.scheme == GgufTextScheme
    requires Lookup(p.all, Repo) == None && Lookup(p.all, Url) == Some(url)
    modifies p
    ensures r == ReadText(rules, p.all)
  {
    var sha := p.Take(Sha);
    assert p.taken == TEXT_URL_KEYS;
    var url' :- UrlOf(rules, Url, url);
    var sha' :- OptSha(rules, Sha, sha);
    var _ :- p.Finish();
    return Ok(TextUrl(url', sha'));
  }

  method ParseGgufText(rules: Rules, p: PairList) returns (r: Result<Model>)
    requires p.Valid() && p.taken == [] && p.scheme == GgufTextScheme
    modifies p
    ensures r == ReadItems(rules, GgufTextScheme, p.all)
  {
    var repo := p.Take(Repo);
    var url := p.Take(Url);
    var source: TextSource;
    if repo.Some? && url.None? {
      source :- ParseTextHf(rules, p, repo.value);
    } else if repo.None? && url.Some? {
      source :- ParseTextUrl(rules, p, url.value);
    } else {
      return Err(MutuallyExclusive(p.scheme));
    }
    return Ok(GgufText(source));
  }

  method ParseVisionFiles(rules: Rules, p: PairList) returns (r: Result<VisionSource>)
    requires p.Valid() && p.taken == []
    modifies p
    ensures r == ReadVisionFiles(rules, p.scheme, p.all)
    ensures r.Ok? ==> p.Valid() && p.taken == VisionKeys(r.value) && (r.value.VisionHf? || r.value.VisionUrl?)
  {
    var repo := p.Take(Repo);
    if repo.Some? {
      r := ParseHfFiles(rules, p, repo.value);
    } else {
      r := ParseUrlFiles(rules, p);
    }
  }

  method ParseHfFiles(rules: Rules, p: PairList, repo: string) returns (r: Result<VisionSource>)
    requires p.Valid() && p.taken == [Repo] && Lookup(p.all, Repo) == Some(repo)
    modifies p
    ensures r == ReadVisionFiles(rules, p.scheme, p.all)
    ensures r.Ok? ==> p.Valid() && p.taken == VISION_HF_KEYS && r.value.VisionHf?
  {
    var rev := p.Take(Rev);
    var model :- p.Require(ModelFile);
    var mmproj :- p.Require(Mmproj);
    var modelSha := p.Take(ModelSha);
    var mmprojSha := p.Take(MmprojSha);
    var repo' :- HfRepoOf(rules, repo, rev);
    var model' :- Subpath(rules, ModelFile, model);
    var modelSha' :- OptSha(rules, ModelSha, modelSha);
    var mmproj' :- Subpath(rules, Mmproj, mmproj);
    var mmprojSha' :- OptSha(rules, MmprojSha, mmprojSha);
    return Ok(VisionHf(repo', FileRef(model', modelSha'), FileRef(mmproj', mmprojSha')));
  }

  method ParseUrlFiles(rules: Rules, p: PairList) returns (r: Result<VisionSource>)
    requires p.Valid() && p.taken == [Repo] && Lookup(p.all, Repo) == None
    modifies p
    ensures r == ReadVisionFiles(rules, p.scheme, p.all)
    ensures r.Ok? ==> p.Valid() && p.taken == VISION_URL_KEYS && r.value.VisionUrl?
  {
    var model :- p.Require(ModelFile);
    var mmproj :- p.Require(Mmproj);
    var modelSha := p.Take(ModelSha);
    var mmprojSha := p.Take(MmprojSha);
    var model' :- UrlOf(rules, ModelFile, model);
    var modelSha' :- OptSha(rules, ModelSha, modelSha);
    var mmproj' :- UrlOf(rules, Mmproj, mmproj);
    var mmprojSha' :- OptSha(rules, MmprojSha, mmprojSha);
    return Ok(VisionUrl(FileRef(model', modelSha'), FileRef(mmproj', mmprojSha')));
  }

  method ParseGgufVision(rules: Rules, p: PairList) returns (r: Result<Model>)
    requires p.Valid() && p.taken == [] && p.scheme == GgufVisionScheme
    modifies p
    ensures r == ReadItems(rules, GgufVisionScheme, p.all)
  {
    var source :- ParseVisionFiles(rules, p);
    var _ :- p.Finish();
    return Ok(GgufVision(source));
  }

  method ParseGgufVisionSpeculative(rules: Rules, p: PairList) returns (r: Result<Model>)
    requires p.Valid() && p.taken == [] && p.scheme == GgufVisionSpeculativeScheme
    modifies p
    ensures r == ReadItems(rules, GgufVisionSpeculativeScheme, p.all)
  {
    var files :- ParseVisionFiles(rules, p);
    var draft := p.Take(Draft);
    var sha := p.Take(DraftSha);
    assert p.taken == VisionKeys(files) + DRAFT_KEYS;
    var sha' :- OptSha(rules, DraftSha, sha);
    var draft': Option<string>;
    if files.VisionHf? {
      draft' :- OptSubpath(rules, Draft, draft);
    } else {
      draft' :- OptUrlOf(rules, Draft, draft);
    }
    var _ :- p.Finish();
    return Ok(GgufVisionSpeculative(files, draft', sha'));
  }

  method ParseDirSource(rules: Rules, p: PairList) returns (r: Result<DirSource>)
    requires p.Valid() && p.taken == []
    modifies p
    ensures r == ReadDir(rules, p.scheme, p.all)
  {
    var repo :- p.Require(Repo);
    var prefix := p.Take(Prefix);
    var rev := p.Take(Rev);
    assert p.taken == DIR_KEYS;
    var repo' :- HfRepoOf(rules, repo, rev);
    var prefix' :- OptSubpath(rules, Prefix, prefix);
    var _ :- p.Finish();
    return Ok(DirHf(repo', prefix'));
  }

  method ParseSpeculativePair(rules: Rules, p: PairList) returns (r: Result<(DirSource, DirSource)>)
    requires p.Valid() && p.taken == []
    modifies p
    ensures r == ReadPair(rules, p.scheme, p.all)
  {
    var repo :- p.Require(Repo);
    var prefix := p.Take(Prefix);
    var rev := p.Take(Rev);
    var draftRepo :- p.Require(DraftRepo);
    var draftPrefix := p.Take(DraftPrefix);
    var draftRev := p.Take(DraftRev);
    assert p.taken == PAIR_KEYS;
    var repo' :- HfRepoOf(rules, repo, rev);
    var prefix' :- OptSubpath(rules, Prefix, prefix);
    var draftRepo' :- HfRepoOf(rules, draftRepo, draftRev);
    var draftPrefix' :- OptSubpath(rules, DraftPrefix, draftPrefix);
    var _ :- p.Finish();
    return Ok((DirHf(repo', prefix'), DirHf(draftRepo', draftPrefix')));
  }

  method ParseModelUri(rules: Rules, input: string) returns (r: Result<Model>)
    ensures r == FromUri(rules, input)
  {
    var at := FindSeparator(input, 0);
    if at.None? {
      return Err(MissingSchemeSeparator);
    }
    var scheme :- SchemeOf(input[..at.value]);
    var pairs := ParsePairList(input[at.value + 3..]);
    if pairs.Broken? {
      return Err(BadPairs(pairs.error));
    }
    var p := new PairList(scheme, pairs.items);
    match scheme {
      case GgufTextScheme => r := ParseGgufText(rules, p);
      case GgufVisionScheme => r := ParseGgufVision(rules, p);
      case GgufVisionSpeculativeScheme => r := ParseGgufVisionSpeculative(rules, p);
      case MlxScheme => var s :- ParseDirSource(rules, p); r := Ok(Mlx(s));
      case CoreAiScheme => var s :- ParseDirSource(rules, p); r := Ok(CoreAi(s));
      case TorchScheme => var s :- ParseDirSource(rules, p); r := Ok(Torch(s));
      case OpenvinoScheme => var s :- ParseDirSource(rules, p); r := Ok(Openvino(s));
      case OnnxGenaiScheme => var s :- ParseDirSource(rules, p); r := Ok(OnnxGenai(s));
      case MlxSpeculativeScheme => var s :- ParseSpeculativePair(rules, p); r := Ok(MlxSpeculative(s.0, s.1));
      case TorchSpeculativeScheme => var s :- ParseSpeculativePair(rules, p); r := Ok(TorchSpeculative(s.0, s.1));
    }
  }

  // ---------------------------------------------------------------- rendering

  lemma {:induction false} TextsAppend(a: seq<Pair>, b: seq<Pair>)
    ensures Texts(a + b) == Texts(a) + Texts(b)
  {
    if a == [] {
      assert a + b == b;
    } else {
      assert (a + b)[1..] == a[1..] + b;
      TextsAppend(a[1..], b);
    }
  }

  lemma {:induction false} EmitAppend(a: seq<Field>, b: seq<Field>)
    ensures Emit(a + b) == Emit(a) + Emit(b)
  {
    if a == [] {
      assert a + b == b;
    } else {
      assert (a + b)[1..] == a[1..] + b;
      EmitAppend(a[1..], b);
    }
  }

  lemma BodyPush(fields: seq<Field>, key: Key, value: Option<string>)
    ensures Texts(Emit(fields + [Field(key, value)])) ==
            Texts(Emit(fields)) + (match value case None => [] case Some(v) => [KeyText(key) + "=" + v])
  {
    var more := Emit([Field(key, value)]);
    EmitAppend(fields, [Field(key, value)]);
    TextsAppend(Emit(fields), more);
    match value {
      case None => assert more == [];
      case Some(v) => assert more == [Pair(KeyText(key), v)] && more[1..] == [];
    }
  }

  /** A rendered body, with the fields it has been given. */
  class Body {
    const scheme: Scheme
    var pairs: seq<string>
    ghost var fields: seq<Field>

    ghost predicate Valid()
      reads this
    {
      pairs == Texts(Emit(fields))
    }

    constructor (scheme: Scheme)
      ensures Valid() && this.scheme == scheme && fields == []
    {
      this.scheme, pairs, fields := scheme, [], [];
    }

    method Push(key: Key, value: string)
      requires Valid()
      modifies this
      ensures Valid() && fields == old(fields) + [Field(key, Some(value))]
    {
      BodyPush(fields, key, Some(value));
      pairs := pairs + [KeyText(key) + "=" + value];
      fields := fields + [Field(key, Some(value))];
    }

    method PushIfAny(key: Key, value: Option<string>)
      requires Valid()
      modifies this
      ensures Valid() && fields == old(fields) + [Field(key, value)]
    {
      if value.Some? {
        Push(key, value.value);
      } else {
        BodyPush(fields, key, None);
        fields := fields + [Field(key, None)];
      }
    }

    method PushRepo(key: Key, repo: HfRepo) returns (r: Result<string>)
      requires Valid()
      modifies this
      ensures Valid() && r == RepoText(repo)
      ensures r.Ok? ==> fields == old(fields) + [Field(key, Some(repo.text))]
    {
      if repo.token.Some? {
        return Err(SecretNotRepresentable);
      }
      Push(key, repo.text);
      return Ok(repo.text);
    }

    method PushUrl(key: Key, url: string) returns (r: Result<string>)
      requires Valid()
      modifies this
      ensures Valid() && r == UrlText(key, url)
      ensures r.Ok? ==> fields == old(fields) + [Field(key, Some(url))]
    {
      if '&' in url || '?' in url {
        return Err(QueryUrl(key));
      }
      Push(key, url);
      return Ok(url);
    }

    method Finish() returns (uri: string)
      requires Valid()
      ensures uri == Written(Form(scheme, fields))
    {
      uri := SchemeText(scheme) + SEPARATOR + Join(pairs, '&');
    }
  }

  method GgufTextToUri(source: TextSource) returns (r: Result<string>)
    ensures r == ToUri(GgufText(source))
  {
    var body := new Body(GgufTextScheme);
    match source {
      case TextHf(repo, path, sha) =>
        var _ :- body.PushRepo(Repo, repo);
        body.Push(Path, path);
        body.PushIfAny(Rev, repo.revision);
        body.PushIfAny(Sha, sha);
      case TextUrl(url, sha) =>
        var _ :- body.PushUrl(Url, url);
        body.PushIfAny(Sha, sha);
      case TextLocal(_) => return Err(NotImportable("local"));
      case TextVault(_) => return Err(VaultNotRepresentable);
    }
    assert body.fields == TextFields(source).value;
    var uri := body.Finish();
    return Ok(uri);
  }

  method PushHfFiles(body: Body, source: VisionSource, draft: Option<string>, draftSha: Option<string>)
    returns (r: Result<()>)
    requires body.Valid() && body.fields == [] && source.VisionHf?
    modifies body
    ensures body.Valid()
    ensures r.Ok? ==> VisionFields(source, draft, draftSha) == Ok(body.fields)
    ensures r.Err? ==> VisionFields(source, draft, draftSha) == Err(r.error)
  {
    var _ :- body.PushRepo(Repo, source.repo);
    body.Push(ModelFile, source.model.at);
    body.Push(Mmproj, source.mmproj.at);
    body.PushIfAny(Draft, draft);
    body.PushIfAny(Rev, source.repo.revision);
    body.PushIfAny(ModelSha, source.model.sha);
    body.PushIfAny(MmprojSha, source.mmproj.sha);
    body.PushIfAny(DraftSha, draftSha);
    assert body.fields == VisionFields(source, draft, draftSha).value;
    return Ok(());
  }

  method PushUrlFiles(body: Body, source: VisionSource, draft: Option<string>, draftSha: Option<string>)
    returns (r: Result<()>)
    requires body.Valid() && body.fields == [] && source.VisionUrl?
    modifies body
    ensures body.Valid()
    ensures r.Ok? ==> VisionFields(source, draft, draftSha) == Ok(body.fields)
    ensures r.Err? ==> VisionFields(source, draft, draftSha) == Err(r.error)
  {
    var _ :- body.PushUrl(ModelFile, source.model.at);
    var _ :- body.PushUrl(Mmproj, source.mmproj.at);
    if draft.Some? {
      var _ :- body.PushUrl(Draft, draft.value);
    } else {
      body.PushIfAny(Draft, None);
    }
    body.PushIfAny(ModelSha, source.model.sha);
    body.PushIfAny(MmprojSha, source.mmproj.sha);
    body.PushIfAny(DraftSha, draftSha);
    assert body.fields == VisionFields(source, draft, draftSha).value;
    return Ok(());
  }

  method PushDir(body: Body, source: DirSource, repoKey: Key, prefixKey: Key, revKey: Key) returns (r: Result<()>)
    requires body.Valid()
    modifies body
    ensures body.Valid()
    ensures match DirFields(source, repoKey, prefixKey, revKey)
            case Ok(f) => r.Ok? && body.fields == old(body.fields) + f
            case Err(e) => r == Err(e)
  {
    match source {
      case DirHf(repo, prefix) =>
        var _ :- body.PushRepo(repoKey, repo);
        body.PushIfAny(prefixKey, prefix);
        body.PushIfAny(revKey, repo.revision);
      case DirVault(_) => return Err(VaultNotRepresentable);
      case DirLocal(_) => return Err(NotImportable("local"));
    }
    return Ok(());
  }

  /** The files, and the drafter where the kind has one. */
  method VisionToUri(scheme: Scheme, source: VisionSource, draft: Option<string>, sha: Option<string>)
    returns (r: Result<string>)
    ensures r == match VisionFields(source, draft, sha) case Ok(f) => Ok(Written(Form(scheme, f))) case Err(e) => Err(e)
  {
    var body := new Body(scheme);
    match source {
      case VisionHf(_, _, _) => var _ :- PushHfFiles(body, source, draft, sha);
      case VisionUrl(_, _) => var _ :- PushUrlFiles(body, source, draft, sha);
      case VisionLocal(_, _) => return Err(NotImportable("local"));
      case VisionVault(_, _) => return Err(VaultNotRepresentable);
    }
    var uri := body.Finish();
    return Ok(uri);
  }

  method DirToUri(scheme: Scheme, source: DirSource) returns (r: Result<string>)
    ensures r == match DirFields(source, Repo, Prefix, Rev)
                 case Ok(f) => Ok(Written(Form(scheme, f)))
                 case Err(e) => Err(e)
  {
    var body := new Body(scheme);
    var _ :- PushDir(body, source, Repo, Prefix, Rev);
    assert body.fields == DirFields(source, Repo, Prefix, Rev).value;
    var uri := body.Finish();
    return Ok(uri);
  }

  method SpeculativePairToUri(scheme: Scheme, target: DirSource, draft: DirSource) returns (r: Result<string>)
    ensures r == match PairFields(target, draft) case Ok(f) => Ok(Written(Form(scheme, f))) case Err(e) => Err(e)
  {
    var body := new Body(scheme);
    var _ :- PushDir(body, target, Repo, Prefix, Rev);
    var _ :- PushDir(body, draft, DraftRepo, DraftPrefix, DraftRev);
    assert body.fields == PairFields(target, draft).value;
    var uri := body.Finish();
    return Ok(uri);
  }

  method ModelToUri(m: Model) returns (r: Result<string>)
    ensures r == ToUri(m)
  {
    match m {
      case GgufText(source) => r := GgufTextToUri(source);
      case GgufVision(source) => r := VisionToUri(GgufVisionScheme, source, None, None);
      case GgufVisionSpeculative(files, draft, sha) => r := VisionToUri(GgufVisionSpeculativeScheme, files, draft, sha);
      case Mlx(source) => r := DirToUri(MlxScheme, source);
      case CoreAi(source) => r := DirToUri(CoreAiScheme, source);
      case Torch(source) => r := DirToUri(TorchScheme, source);
      case Openvino(source) => r := DirToUri(OpenvinoScheme, source);
      case OnnxGenai(source) => r := DirToUri(OnnxGenaiScheme, source);
      case MlxSpeculative(target, draft) => r := SpeculativePairToUri(MlxSpeculativeScheme, target, draft);
      case TorchSpeculative(target, draft) => r := SpeculativePairToUri(TorchSpeculativeScheme, target, draft);
      case AppleFoundation => r := Err(NotImportable("apple-foundation"));
    }
  }
}
