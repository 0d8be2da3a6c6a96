/** The compact model URI: what it parses to, what a model renders to, and that the two are inverse. */
module ModelUri {
  import opened Prelude
  import opened UriText

  // ---------------------------------------------------------------- keys and schemes

  datatype Key =
    | Repo | Rev | Path | Url | Sha | ModelFile | Mmproj | ModelSha | MmprojSha
    | Prefix | Draft | DraftSha | DraftRepo | DraftPrefix | DraftRev

  function KeyText(k: Key): string {
    match k
    case Repo => "repo"
    case Rev => "rev"
    case Path => "path"
    case Url => "url"
    case Sha => "sha256"
    case ModelFile => "model"
    case Mmproj => "mmproj"
    case ModelSha => "model_sha256"
    case MmprojSha => "mmproj_sha256"
    case Prefix => "prefix"
    case Draft => "draft"
    case DraftSha => "draft_sha256"
    case DraftRepo => "draft_repo"
    case DraftPrefix => "draft_prefix"
    case DraftRev => "draft_rev"
  }

  datatype Scheme =
    | GgufTextScheme | GgufVisionScheme | GgufVisionSpeculativeScheme | MlxScheme | CoreAiScheme
    | MlxSpeculativeScheme | TorchScheme | TorchSpeculativeScheme | OpenvinoScheme | OnnxGenaiScheme

  function SchemeText(s: Scheme): string {
    match s
    case GgufTextScheme => "gguf-text"
    case GgufVisionScheme => "gguf-vision"
    case GgufVisionSpeculativeScheme => "gguf-vision-speculative"
    case MlxScheme => "mlx"
    case CoreAiScheme => "core-ai"
    case MlxSpeculativeScheme => "mlx-speculative"
    case TorchScheme => "torch"
    case TorchSpeculativeScheme => "torch-speculative"
    case OpenvinoScheme => "openvino"
    case OnnxGenaiScheme => "onnx-genai"
  }

  datatype UriError =
    | MissingSchemeSeparator
    | UnknownScheme(text: string)
    | NotImportable(text: string)
    | BadPairs(error: PairsError)
    | UnknownKey(scheme: Scheme, text: string)
    | MissingKey(scheme: Scheme, key: Key)
    | MutuallyExclusive(scheme: Scheme)
    | QueryUrl(key: Key)
    | SecretNotRepresentable
    | VaultNotRepresentable
    | InvalidValue(key: Key)

  datatype Result<+T> = Ok(value: T) | Err(error: UriError) {
    predicate IsFailure() {
      Err?
    }

    function PropagateFailure<U>(): Result<U>
      requires Err?
    {
      Err(error)
    }

    function Extract(): T
      requires Ok?
    {
      value
    }
  }

  function SchemeOf(text: string): Result<Scheme> {
    if text == "gguf-text" then Ok(GgufTextScheme)
    else if text == "gguf-vision" then Ok(GgufVisionScheme)
    else if text == "gguf-vision-speculative" then Ok(GgufVisionSpeculativeScheme)
    else if text == "mlx" then Ok(MlxScheme)
    else if text == "core-ai" then Ok(CoreAiScheme)
    else if text == "mlx-speculative" then Ok(MlxSpeculativeScheme)
    else if text == "torch" then Ok(TorchScheme)
    else if text == "torch-speculative" then Ok(TorchSpeculativeScheme)
    else if text == "openvino" then Ok(OpenvinoScheme)
    else if text == "onnx-genai" then Ok(OnnxGenaiScheme)
    else if text == "apple-foundation" || text == "local" || text == "file" then Err(NotImportable(text))
    else Err(UnknownScheme(text))
  }

  lemma SchemeTextReadsBack(s: Scheme)
    ensures SchemeOf(SchemeText(s)) == Ok(s) && ':' !in SchemeText(s)
  {
  }

  lemma KeyTextIsPlain(k: Key)
    ensures KeyText(k) != "" && '=' !in KeyText(k) && '&' !in KeyText(k)
  {
  }

  lemma KeyTextInjective(a: Key, b: Key)
    requires KeyText(a) == KeyText(b)
    ensures a == b
  {
  }

  // ---------------------------------------------------------------- models

  /** What the field types accept. Each keeps the text it was made from. */
  datatype Rules = Rules(repo: string -> bool, rev: string -> bool, path: string -> bool,
                         url: string -> bool, sha: string -> bool)

  /** `text` is `org/name`. */
  datatype HfRepo = HfRepo(text: string, revision: Option<string>, token: Option<string>)

  datatype TextSource =
    | TextHf(repo: HfRepo, path: string, sha: Option<string>)
    | TextUrl(url: string, sha: Option<string>)
    | TextLocal(file: string)
    | TextVault(file: string)

  /** A file and its optional digest; under a repository a path, else a URL. */
  datatype FileRef = FileRef(at: string, sha: Option<string>)

  datatype VisionSource =
    | VisionHf(repo: HfRepo, model: FileRef, mmproj: FileRef)
    | VisionUrl(model: FileRef, mmproj: FileRef)
    | VisionLocal(model: FileRef, mmproj: FileRef)
    | VisionVault(model: FileRef, mmproj: FileRef)

  datatype DirSource =
    | DirHf(repo: HfRepo, prefix: Option<string>)
    | DirLocal(dir: string)
    | DirVault(archive: string)

  datatype Model =
    | GgufText(text: TextSource)
    | GgufVision(vision: VisionSource)
    | GgufVisionSpeculative(files: VisionSource, draft: Option<string>, draftSha: Option<string>)
    | Mlx(source: DirSource)
    | CoreAi(source: DirSource)
    | Torch(source: DirSource)
    | Openvino(source: DirSource)
    | OnnxGenai(source: DirSource)
    | MlxSpeculative(target: DirSource, drafter: DirSource)
    | TorchSpeculative(target: DirSource, drafter: DirSource)
    | AppleFoundation

  // ---------------------------------------------------------------- what a model renders to

  datatype Field = Field(key: Key, value: Option<string>)

  function RepoText(repo: HfRepo): Result<string> {
    if repo.token.Some? then Err(SecretNotRepresentable) else Ok(repo.text)
  }

  function UrlText(key: Key, url: string): Result<string> {
    if '&' in url || '?' in url then Err(QueryUrl(key)) else Ok(url)
  }

  function OptUrlText(key: Key, url: Option<string>): Result<Option<string>> {
    match url
    case None => Ok(None)
    case Some(u) => var t :- UrlText(key, u); Ok(Some(t))
  }

  function TextFields(source: TextSource): Result<seq<Field>> {
    match source
    case TextHf(repo, path, sha) =>
      var r :- RepoText(repo);
      Ok([Field(Repo, Some(r)), Field(Path, Some(path)), Field(Rev, repo.revision), Field(Sha, sha)])
    case TextUrl(url, sha) =>
      var u :- UrlText(Url, url);
      Ok([Field(Url, Some(u)), Field(Sha, sha)])
    case TextLocal(_) => Err(NotImportable("local"))
    case TextVault(_) => Err(VaultNotRepresentable)
  }

  /** The drafter's fields are `None` where the kind has none. */
  function VisionFields(source: VisionSource, draft: Option<string>, draftSha: Option<string>): Result<seq<Field>> {
    match source
    case VisionHf(repo, model, mmproj) =>
      var r :- RepoText(repo);
      Ok([Field(Repo, Some(r)), Field(ModelFile, Some(model.at)), Field(Mmproj, Some(mmproj.at)), Field(Draft, draft),
          Field(Rev, repo.revision), Field(ModelSha, model.sha), Field(MmprojSha, mmproj.sha),
          Field(DraftSha, draftSha)])
    case VisionUrl(model, mmproj) =>
      var m :- UrlText(ModelFile, model.at);
      var p :- UrlText(Mmproj, mmproj.at);
      var d :- OptUrlText(Draft, draft);
      Ok([Field(ModelFile, Some(m)), Field(Mmproj, Some(p)), Field(Draft, d),
          Field(ModelSha, model.sha), Field(MmprojSha, mmproj.sha), Field(DraftSha, draftSha)])
    case VisionLocal(_, _) => Err(NotImportable("local"))
    case VisionVault(_, _) => Err(VaultNotRepresentable)
  }

  function DirFields(source: DirSource, repoKey: Key, prefixKey: Key, revKey: Key): Result<seq<Field>> {
    match source
    case DirHf(repo, prefix) =>
      var r :- RepoText(repo);
      Ok([Field(repoKey, Some(r)), Field(prefixKey, prefix), Field(revKey, repo.revision)])
    case DirVault(_) => Err(VaultNotRepresentable)
    case DirLocal(_) => Err(NotImportable("local"))
  }

  function PairFields(target: DirSource, draft: DirSource): Result<seq<Field>> {
    var t :- DirFields(target, Repo, Prefix, Rev);
    var d :- DirFields(draft, DraftRepo, DraftPrefix, DraftRev);
    Ok(t + d)
  }

  datatype Form = Form(scheme: Scheme, fields: seq<Field>)

  /** The scheme and the fields, in the order they are written. */
  function FormOf(m: Model): Result<Form> {
    match m
    case GgufText(source) => var f :- TextFields(source); Ok(Form(GgufTextScheme, f))
    case GgufVision(source) => var f :- VisionFields(source, None, None); Ok(Form(GgufVisionScheme, f))
    case GgufVisionSpeculative(files, draft, sha) =>
      var f :- VisionFields(files, draft, sha); Ok(Form(GgufVisionSpeculativeScheme, f))
    case Mlx(source) => var f :- DirFields(source, Repo, Prefix, Rev); Ok(Form(MlxScheme, f))
    case CoreAi(source) => var f :- DirFields(source, Repo, Prefix, Rev); Ok(Form(CoreAiScheme, f))
    case Torch(source) => var f :- DirFields(source, Repo, Prefix, Rev); Ok(Form(TorchScheme, f))
    case Openvino(source) => var f :- DirFields(source, Repo, Prefix, Rev); Ok(Form(OpenvinoScheme, f))
    case OnnxGenai(source) => var f :- DirFields(source, Repo, Prefix, Rev); Ok(Form(OnnxGenaiScheme, f))
    case MlxSpeculative(target, draft) => var f :- PairFields(target, draft); Ok(Form(MlxSpeculativeScheme, f))
    case TorchSpeculative(target, draft) => var f :- PairFields(target, draft); Ok(Form(TorchSpeculativeScheme, f))
    case AppleFoundation => Err(NotImportable("apple-foundation"))
  }

  /** A field without a value is not written. */
  function Emit(fields: seq<Field>): seq<Pair> {
    if fields == [] then []
    else (match fields[0].value case None => [] case Some(v) => [Pair(KeyText(fields[0].key), v)]) + Emit(fields[1..])
  }

  function Written(form: Form): string {
    SchemeText(form.scheme) + SEPARATOR + Join(Texts(Emit(form.fields)), '&')
  }

  function ToUri(m: Model): Result<string> {
    var form :- FormOf(m);
    Ok(Written(form))
  }

  // ---------------------------------------------------------------- what the pairs of a URI mean

  function Lookup(items: seq<Pair>, key: Key): Option<string> {
    if items == [] then None
    else if items[0].key == KeyText(key) then Some(items[0].value)
    else Lookup(items[1..], key)
  }

  function Require(items: seq<Pair>, scheme: Scheme, key: Key): Result<string> {
    match Lookup(items, key)
    case None => Err(MissingKey(scheme, key))
    case Some(v) => Ok(v)
  }

  predicate IsClaimed(text: string, claimed: seq<Key>) {
    exists k :: k in claimed && KeyText(k) == text
  }

  /** Refuses the first key the scheme did not claim. */
  function NoOther(items: seq<Pair>, scheme: Scheme, claimed: seq<Key>): Result<()> {
    if items == [] then Ok(())
    else if IsClaimed(items[0].key, claimed) then NoOther(items[1..], scheme, claimed)
    else Err(UnknownKey(scheme, items[0].key))
  }

  function HfRepoOf(rules: Rules, text: string, rev: Option<string>): Result<HfRepo> {
    if !rules.repo(text) then Err(InvalidValue(Repo))
    else
      match rev
      case None => Ok(HfRepo(text, None, None))
      case Some(r) => if rules.rev(r) then Ok(HfRepo(text, Some(r), None)) else Err(InvalidValue(Rev))
  }

  function Subpath(rules: Rules, key: Key, v: string): Result<string> {
    if rules.path(v) then Ok(v) else Err(InvalidValue(key))
  }

  function OptSubpath(rules: Rules, key: Key, v: Option<string>): Result<Option<string>> {
    match v
    case None => Ok(None)
    case Some(t) => var p :- Subpath(rules, key, t); Ok(Some(p))
  }

  function UrlOf(rules: Rules, key: Key, v: string): Result<string> {
    if '?' in v then Err(QueryUrl(key)) else if rules.url(v) then Ok(v) else Err(InvalidValue(key))
  }

  function OptUrlOf(rules: Rules, key: Key, v: Option<string>): Result<Option<string>> {
    match v
    case None => Ok(None)
    case Some(t) => var u :- UrlOf(rules, key, t); Ok(Some(u))
  }

  function OptSha(rules: Rules, key: Key, v: Option<string>): Result<Option<string>> {
    match v
    case None => Ok(None)
    case Some(t) => if rules.sha(t) then Ok(Some(t)) else Err(InvalidValue(key))
  }

  const TEXT_HF_KEYS := [Repo, Url, Rev, Path, Sha]
  const TEXT_URL_KEYS := [Repo, Url, Sha]
  const VISION_HF_KEYS := [Repo, Rev, ModelFile, Mmproj, ModelSha, MmprojSha]
  const VISION_URL_KEYS := [Repo, ModelFile, Mmproj, ModelSha, MmprojSha]
  const DRAFT_KEYS := [Draft, DraftSha]
  const DIR_KEYS := [Repo, Prefix, Rev]
  const PAIR_KEYS := [Repo, Prefix, Rev, DraftRepo, DraftPrefix, DraftRev]

  function ReadText(rules: Rules, items: seq<Pair>): Result<TextSource> {
    match (Lookup(items, Repo), Lookup(items, Url))
    case (Some(repo), None) =>
      var path :- Require(items, GgufTextScheme, Path);
      var r :- HfRepoOf(rules, repo, Lookup(items, Rev));
      var p :- Subpath(rules, Path, path);
      var sha :- OptSha(rules, Sha, Lookup(items, Sha));
      var _ :- NoOther(items, GgufTextScheme, TEXT_HF_KEYS);
      Ok(TextHf(r, p, sha))
    case (None, Some(url)) =>
      var u :- UrlOf(rules, Url, url);
      var sha :- OptSha(rules, Sha, Lookup(items, Sha));
      var _ :- NoOther(items, GgufTextScheme, TEXT_URL_KEYS);
      Ok(TextUrl(u, sha))
    case _ => Err(MutuallyExclusive(GgufTextScheme))
  }

  function ReadVisionFiles(rules: Rules, scheme: Scheme, items: seq<Pair>): Result<VisionSource> {
    var model :- Require(items, scheme, ModelFile);
    var mmproj :- Require(items, scheme, Mmproj);
    match Lookup(items, Repo)
    case Some(repo) =>
      var r :- HfRepoOf(rules, repo, Lookup(items, Rev));
      var m :- Subpath(rules, ModelFile, model);
      var msha :- OptSha(rules, ModelSha, Lookup(items, ModelSha));
      var p :- Subpath(rules, Mmproj, mmproj);
      var psha :- OptSha(rules, MmprojSha, Lookup(items, MmprojSha));
      Ok(VisionHf(r, FileRef(m, msha), FileRef(p, psha)))
    case None =>
      var m :- UrlOf(rules, ModelFile, model);
      var msha :- OptSha(rules, ModelSha, Lookup(items, ModelSha));
      var p :- UrlOf(rules, Mmproj, mmproj);
      var psha :- OptSha(rules, MmprojSha, Lookup(items, MmprojSha));
      Ok(VisionUrl(FileRef(m, msha), FileRef(p, psha)))
  }

  function VisionKeys(source: VisionSource): seq<Key> {
    if source.VisionHf? then VISION_HF_KEYS else VISION_URL_KEYS
  }

  function ReadVision(rules: Rules, items: seq<Pair>): Result<VisionSource> {
    var source :- ReadVisionFiles(rules, GgufVisionScheme, items);
    var _ :- NoOther(items, GgufVisionScheme, VisionKeys(source));
    Ok(source)
  }

  function ReadVisionSpeculative(rules: Rules, items: seq<Pair>): Result<Model> {
    var files :- ReadVisionFiles(rules, GgufVisionSpeculativeScheme, items);
    var sha :- OptSha(rules, DraftSha, Lookup(items, DraftSha));
    var draft :- if files.VisionHf? then OptSubpath(rules, Draft, Lookup(items, Draft))
                 else OptUrlOf(rules, Draft, Lookup(items, Draft));
    var _ :- NoOther(items, GgufVisionSpeculativeScheme, VisionKeys(files) + DRAFT_KEYS);
    Ok(GgufVisionSpeculative(files, draft, sha))
  }

  function ReadDir(rules: Rules, scheme: Scheme, items: seq<Pair>): Result<DirSource> {
    var repo :- Require(items, scheme, Repo);
    var r :- HfRepoOf(rules, repo, Lookup(items, Rev));
    var prefix :- OptSubpath(rules, Prefix, Lookup(items, Prefix));
    var _ :- NoOther(items, scheme, DIR_KEYS);
    Ok(DirHf(r, prefix))
  }

  function ReadPair(rules: Rules, scheme: Scheme, items: seq<Pair>): Result<(DirSource, DirSource)> {
    var repo :- Require(items, scheme, Repo);
    var draftRepo :- Require(items, scheme, DraftRepo);
    var r :- HfRepoOf(rules, repo, Lookup(items, Rev));
    var prefix :- OptSubpath(rules, Prefix, Lookup(items, Prefix));
    var d :- HfRepoOf(rules, draftRepo, Lookup(items, DraftRev));
    var draftPrefix :- OptSubpath(rules, DraftPrefix, Lookup(items, DraftPrefix));
    var _ :- NoOther(items, scheme, PAIR_KEYS);
    Ok((DirHf(r, prefix), DirHf(d, draftPrefix)))
  }

  function ReadItems(rules: Rules, scheme: Scheme, items: seq<Pair>): Result<Model> {
    match scheme
    case GgufTextScheme => var s :- ReadText(rules, items); Ok(GgufText(s))
    case GgufVisionScheme => var s :- ReadVision(rules, items); Ok(GgufVision(s))
    case GgufVisionSpeculativeScheme => ReadVisionSpeculative(rules, items)
    case MlxScheme => var s :- ReadDir(rules, scheme, items); Ok(Mlx(s))
    case CoreAiScheme => var s :- ReadDir(rules, scheme, items); Ok(CoreAi(s))
    case TorchScheme => var s :- ReadDir(rules, scheme, items); Ok(Torch(s))
    case OpenvinoScheme => var s :- ReadDir(rules, scheme, items); Ok(Openvino(s))
    case OnnxGenaiScheme => var s :- ReadDir(rules, scheme, items); Ok(OnnxGenai(s))
    case MlxSpeculativeScheme => var s :- ReadPair(rules, scheme, items); Ok(MlxSpeculative(s.0, s.1))
    case TorchSpeculativeScheme => var s :- ReadPair(rules, scheme, items); Ok(TorchSpeculative(s.0, s.1))
  }

  function FromUri(rules: Rules, input: string): Result<Model> {
    match FindSeparator(input, 0)
    case None => Err(MissingSchemeSeparator)
    case Some(at) =>
      var scheme :- SchemeOf(input[..at]);
      match ParsePairs(input[at + 3..])
      case Broken(e) => Err(BadPairs(e))
      case Pairs(items) => ReadItems(rules, scheme, items)
  }

  // ---------------------------------------------------------------- reading back what was written

  ghost predicate DistinctFields(fields: seq<Field>) {
    forall i, j :: 0 <= i < j < |fields| ==> fields[i].key != fields[j].key
  }

  function ValueIn(fields: seq<Field>, key: Key): Option<string> {
    if fields == [] then None
    else if fields[0].key == key && fields[0].value.Some? then fields[0].value
    else ValueIn(fields[1..], key)
  }

  lemma {:induction false} LookupEmit(fields: seq<Field>, key: Key)
    ensures Lookup(Emit(fields), key) == ValueIn(fields, key)
  {
    if fields != [] {
      LookupEmit(fields[1..], key);
      var rest := Emit(fields[1..]);
      match fields[0].value {
        case None => assert [] + rest == rest;
        case Some(v) =>
          assert ([Pair(KeyText(fields[0].key), v)] + rest)[1..] == rest;
          if KeyText(fields[0].key) == KeyText(key) { KeyTextInjective(fields[0].key, key); }
      }
    }
  }

  lemma {:induction false} EmitClaimed(fields: seq<Field>, scheme: Scheme, claimed: seq<Key>)
    requires forall f :: f in fields && f.value.Some? ==> f.key in claimed
    ensures NoOther(Emit(fields), scheme, claimed) == Ok(())
  {
    if fields != [] {
      EmitClaimed(fields[1..], scheme, claimed);
      var rest := Emit(fields[1..]);
      match fields[0].value {
        case None => assert [] + rest == rest;
        case Some(v) =>
          assert ([Pair(KeyText(fields[0].key), v)] + rest)[1..] == rest;
          assert IsClaimed(KeyText(fields[0].key), claimed);
      }
    }
  }

  lemma {:induction false} ValueAt(fields: seq<Field>, i: nat)
    requires DistinctFields(fields) && i < |fields|
    ensures ValueIn(fields, fields[i].key) == fields[i].value
  {
    if i == 0 {
      if fields[0].value.None? { NoValue(fields[1..], fields[0].key); }
    } else {
      ValueAt(fields[1..], i - 1);
    }
  }

  lemma {:induction false} NoValue(fields: seq<Field>, key: Key)
    requires forall f :: f in fields ==> f.key != key
    ensures ValueIn(fields, key) == None
  {
    if fields != [] {
      NoValue(fields[1..], key);
    }
  }

  lemma ReadAt(fields: seq<Field>, i: nat)
    requires DistinctFields(fields) && i < |fields|
    ensures Lookup(Emit(fields), fields[i].key) == fields[i].value
  {
    LookupEmit(fields, fields[i].key);
    ValueAt(fields, i);
  }

  lemma ReadNone(fields: seq<Field>, key: Key)
    requires forall f :: f in fields ==> f.key != key
    ensures Lookup(Emit(fields), key) == None
  {
    LookupEmit(fields, key);
    NoValue(fields, key);
  }

  predicate OptOk(ok: string -> bool, v: Option<string>) {
    v.Some? ==> ok(v.value)
  }

  predicate RepoOk(rules: Rules, r: HfRepo) {
    rules.repo(r.text) && OptOk(rules.rev, r.revision)
  }

  predicate TextOk(rules: Rules, source: TextSource) {
    match source
    case TextHf(repo, path, sha) => RepoOk(rules, repo) && rules.path(path) && OptOk(rules.sha, sha)
    case TextUrl(url, sha) => rules.url(url) && OptOk(rules.sha, sha)
    case _ => true
  }

  predicate VisionOk(rules: Rules, source: VisionSource) {
    match source
    case VisionHf(repo, model, mmproj) =>
      && RepoOk(rules, repo) && rules.path(model.at) && rules.path(mmproj.at)
      && OptOk(rules.sha, model.sha) && OptOk(rules.sha, mmproj.sha)
    case VisionUrl(model, mmproj) =>
      && rules.url(model.at) && rules.url(mmproj.at)
      && OptOk(rules.sha, model.sha) && OptOk(rules.sha, mmproj.sha)
    case _ => true
  }

  predicate DraftOk(rules: Rules, source: VisionSource, draft: Option<string>, sha: Option<string>) {
    && OptOk(rules.sha, sha)
    && (source.VisionHf? ==> OptOk(rules.path, draft))
    && (source.VisionUrl? ==> OptOk(rules.url, draft))
  }

  predicate DirOk(rules: Rules, source: DirSource) {
    source.DirHf? ==> RepoOk(rules, source.repo) && OptOk(rules.path, source.prefix)
  }

  /** Every field holds a value its type accepts. */
  predicate Valid(rules: Rules, m: Model) {
    match m
    case GgufText(source) => TextOk(rules, source)
    case GgufVision(source) => VisionOk(rules, source)
    case GgufVisionSpeculative(files, draft, sha) => VisionOk(rules, files) && DraftOk(rules, files, draft, sha)
    case Mlx(source) => DirOk(rules, source)
    case CoreAi(source) => DirOk(rules, source)
    case Torch(source) => DirOk(rules, source)
    case Openvino(source) => DirOk(rules, source)
    case OnnxGenai(source) => DirOk(rules, source)
    case MlxSpeculative(target, draft) => DirOk(rules, target) && DirOk(rules, draft)
    case TorchSpeculative(target, draft) => DirOk(rules, target) && DirOk(rules, draft)
    case AppleFoundation => true
  }

  lemma TextReadsBack(rules: Rules, source: TextSource, fields: seq<Field>)
    requires TextFields(source) == Ok(fields) && TextOk(rules, source)
    ensures ReadText(rules, Emit(fields)) == Ok(source)
  {
    match source {
      case TextHf(_, _, _) =>
        ReadAt(fields, 0);
        ReadAt(fields, 1);
        ReadAt(fields, 2);
        ReadAt(fields, 3);
        ReadNone(fields, Url);
        EmitClaimed(fields, GgufTextScheme, TEXT_HF_KEYS);
      case TextUrl(_, _) =>
        ReadAt(fields, 0);
        ReadAt(fields, 1);
        ReadNone(fields, Repo);
        EmitClaimed(fields, GgufTextScheme, TEXT_URL_KEYS);
    }
  }

  lemma VisionHfLookups(source: VisionSource, draft: Option<string>, sha: Option<string>, fields: seq<Field>)
    requires source.VisionHf? && VisionFields(source, draft, sha) == Ok(fields)
    ensures var items := Emit(fields);
            && Lookup(items, Repo) == Some(source.repo.text) && Lookup(items, Rev) == source.repo.revision
            && Lookup(items, ModelFile) == Some(source.model.at) && Lookup(items, Mmproj) == Some(source.mmproj.at)
            && Lookup(items, ModelSha) == source.model.sha && Lookup(items, MmprojSha) == source.mmproj.sha
            && Lookup(items, Draft) == draft && Lookup(items, DraftSha) == sha
  {
    ReadAt(fields, 0);
    ReadAt(fields, 1);
    ReadAt(fields, 2);
    ReadAt(fields, 3);
    ReadAt(fields, 4);
    ReadAt(fields, 5);
    ReadAt(fields, 6);
    ReadAt(fields, 7);
  }

  lemma VisionHfReadsBack(rules: Rules, scheme: Scheme, source: VisionSource,
                          draft: Option<string>, sha: Option<string>, fields: seq<Field>)
    requires source.VisionHf? && VisionFields(source, draft, sha) == Ok(fields)
    requires VisionOk(rules, source)
    ensures ReadVisionFiles(rules, scheme, Emit(fields)) == Ok(source)
    ensures Lookup(Emit(fields), Draft) == draft && Lookup(Emit(fields), DraftSha) == sha
  {
    VisionHfLookups(source, draft, sha, fields);
  }

  lemma VisionUrlLookups(source: VisionSource, draft: Option<string>, sha: Option<string>, fields: seq<Field>)
    requires source.VisionUrl? && VisionFields(source, draft, sha) == Ok(fields)
    ensures var items := Emit(fields);
            && Lookup(items, Repo) == None
            && Lookup(items, ModelFile) == Some(source.model.at) && Lookup(items, Mmproj) == Some(source.mmproj.at)
            && Lookup(items, ModelSha) == source.model.sha && Lookup(items, MmprojSha) == source.mmproj.sha
            && Lookup(items, Draft) == draft && Lookup(items, DraftSha) == sha
  {
    VisionUrlForm(source, draft, sha, fields);
    SixLookups(fields);
    ReadNone(fields, Repo);
  }

  lemma VisionUrlForm(source: VisionSource, draft: Option<string>, sha: Option<string>, fields: seq<Field>)
    requires source.VisionUrl? && VisionFields(source, draft, sha) == Ok(fields)
    ensures fields == [Field(ModelFile, Some(source.model.at)), Field(Mmproj, Some(source.mmproj.at)),
                       Field(Draft, draft), Field(ModelSha, source.model.sha), Field(MmprojSha, source.mmproj.sha),
                       Field(DraftSha, sha)]
    ensures DistinctFields(fields)
  {
  }

  lemma SixLookups(fields: seq<Field>)
    requires DistinctFields(fields) && |fields| == 6
    ensures var items := Emit(fields);
            && Lookup(items, fields[0].key) == fields[0].value && Lookup(items, fields[1].key) == fields[1].value
            && Lookup(items, fields[2].key) == fields[2].value && Lookup(items, fields[3].key) == fields[3].value
            && Lookup(items, fields[4].key) == fields[4].value && Lookup(items, fields[5].key) == fields[5].value
  {
    ReadAt(fields, 0);
    ReadAt(fields, 1);
    ReadAt(fields, 2);
    ReadAt(fields, 3);
    ReadAt(fields, 4);
    ReadAt(fields, 5);
  }

  lemma VisionUrlReadsBack(rules: Rules, scheme: Scheme, source: VisionSource,
                           draft: Option<string>, sha: Option<string>, fields: seq<Field>)
    requires source.VisionUrl? && VisionFields(source, draft, sha) == Ok(fields)
    requires VisionOk(rules, source)
    ensures ReadVisionFiles(rules, scheme, Emit(fields)) == Ok(source)
    ensures Lookup(Emit(fields), Draft) == draft && Lookup(Emit(fields), DraftSha) == sha
  {
    VisionUrlLookups(source, draft, sha, fields);
  }

  lemma DirReadsBack(rules: Rules, scheme: Scheme, source: DirSource, fields: seq<Field>)
    requires DirFields(source, Repo, Prefix, Rev) == Ok(fields) && DirOk(rules, source)
    ensures ReadDir(rules, scheme, Emit(fields)) == Ok(source)
  {
    ReadAt(fields, 0);
    ReadAt(fields, 1);
    ReadAt(fields, 2);
    EmitClaimed(fields, scheme, DIR_KEYS);
  }

  lemma PairLookups(target: DirSource, draft: DirSource, fields: seq<Field>)
    requires PairFields(target, draft) == Ok(fields)
    ensures var items := Emit(fields);
            && Lookup(items, Repo) == Some(target.repo.text) && Lookup(items, DraftRepo) == Some(draft.repo.text)
            && Lookup(items, Prefix) == target.prefix && Lookup(items, DraftPrefix) == draft.prefix
            && Lookup(items, Rev) == target.repo.revision && Lookup(items, DraftRev) == draft.repo.revision
  {
    SixLookups(fields);
  }

  lemma PairReadsBack(rules: Rules, scheme: Scheme, target: DirSource, draft: DirSource, fields: seq<Field>)
    requires PairFields(target, draft) == Ok(fields) && DirOk(rules, target) && DirOk(rules, draft)
    ensures ReadPair(rules, scheme, Emit(fields)) == Ok((target, draft))
  {
    PairLookups(target, draft, fields);
    EmitClaimed(fields, scheme, PAIR_KEYS);
  }

  lemma VisionReadsBack(rules: Rules, source: VisionSource, fields: seq<Field>)
    requires VisionFields(source, None, None) == Ok(fields) && VisionOk(rules, source)
    ensures ReadVision(rules, Emit(fields)) == Ok(source)
  {
    if source.VisionHf? {
      VisionHfReadsBack(rules, GgufVisionScheme, source, None, None, fields);
    } else {
      VisionUrlReadsBack(rules, GgufVisionScheme, source, None, None, fields);
    }
    EmitClaimed(fields, GgufVisionScheme, VisionKeys(source));
  }

  lemma VisionSpeculativeReadsBack(rules: Rules, files: VisionSource, draft: Option<string>, sha: Option<string>,
                                   fields: seq<Field>)
    requires VisionFields(files, draft, sha) == Ok(fields)
    requires VisionOk(rules, files) && DraftOk(rules, files, draft, sha)
    ensures ReadVisionSpeculative(rules, Emit(fields)) == Ok(GgufVisionSpeculative(files, draft, sha))
  {
    if files.VisionHf? {
      VisionHfReadsBack(rules, GgufVisionSpeculativeScheme, files, draft, sha, fields);
    } else {
      VisionUrlReadsBack(rules, GgufVisionSpeculativeScheme, files, draft, sha, fields);
    }
    EmitClaimed(fields, GgufVisionSpeculativeScheme, VisionKeys(files) + DRAFT_KEYS);
  }

  lemma FormReadsBack(rules: Rules, m: Model, form: Form)
    requires FormOf(m) == Ok(form) && Valid(rules, m)
    ensures ReadItems(rules, form.scheme, Emit(form.fields)) == Ok(m)
  {
    if m.GgufText? || m.GgufVision? || m.GgufVisionSpeculative? {
      GgufReadsBack(rules, m, form);
    } else if m.MlxSpeculative? || m.TorchSpeculative? {
      PairKindReadsBack(rules, m, form);
    } else {
      DirKindReadsBack(rules, m, form);
    }
  }

  lemma GgufReadsBack(rules: Rules, m: Model, form: Form)
    requires FormOf(m) == Ok(form) && Valid(rules, m)
    requires m.GgufText? || m.GgufVision? || m.GgufVisionSpeculative?
    ensures ReadItems(rules, form.scheme, Emit(form.fields)) == Ok(m)
  {
    match m {
      case GgufText(source) => TextReadsBack(rules, source, form.fields);
      case GgufVision(source) => VisionReadsBack(rules, source, form.fields);
      case GgufVisionSpeculative(files, draft, sha) =>
        VisionSpeculativeReadsBack(rules, files, draft, sha, form.fields);
    }
  }

  lemma DirKindReadsBack(rules: Rules, m: Model, form: Form)
    requires FormOf(m) == Ok(form) && Valid(rules, m)
    requires m.Mlx? || m.CoreAi? || m.Torch? || m.Openvino? || m.OnnxGenai?
    ensures ReadItems(rules, form.scheme, Emit(form.fields)) == Ok(m)
  {
    match m {
      case Mlx(source) => DirReadsBack(rules, form.scheme, source, form.fields);
      case CoreAi(source) => DirReadsBack(rules, form.scheme, source, form.fields);
      case Torch(source) => DirReadsBack(rules, form.scheme, source, form.fields);
      case Openvino(source) => DirReadsBack(rules, form.scheme, source, form.fields);
      case OnnxGenai(source) => DirReadsBack(rules, form.scheme, source, form.fields);
    }
  }

  lemma PairKindReadsBack(rules: Rules, m: Model, form: Form)
    requires FormOf(m) == Ok(form) && Valid(rules, m)
    requires m.MlxSpeculative? || m.TorchSpeculative?
    ensures ReadItems(rules, form.scheme, Emit(form.fields)) == Ok(m)
  {
    match m {
      case MlxSpeculative(target, draft) => PairReadsBack(rules, form.scheme, target, draft, form.fields);
      case TorchSpeculative(target, draft) => PairReadsBack(rules, form.scheme, target, draft, form.fields);
    }
  }

  // ---------------------------------------------------------------- the text in between

  predicate Plain(v: Option<string>) {
    v.Some? ==> '&' !in v.value
  }

  /** No written value holds the pair separator. */
  ghost predicate NoAmpersand(fields: seq<Field>) {
    forall f :: f in fields ==> Plain(f.value)
  }

  lemma {:induction false} EmitHasKey(fields: seq<Field>, text: string)
    requires HasKey(Emit(fields), text)
    ensures exists f :: f in fields && KeyText(f.key) == text
  {
    if fields != [] {
      var p :| p in Emit(fields) && p.key == text;
      if p in Emit(fields[1..]) {
        EmitHasKey(fields[1..], text);
      } else {
        assert fields[0] in fields && KeyText(fields[0].key) == text;
      }
    }
  }

  lemma {:induction false} EmitCarriable(fields: seq<Field>)
    requires DistinctFields(fields) && NoAmpersand(fields)
    ensures Carriable(Emit(fields))
  {
    if fields != [] {
      EmitCarriable(fields[1..]);
      if fields[0].value.Some? {
        var p, rest := Pair(KeyText(fields[0].key), fields[0].value.value), Emit(fields[1..]);
        KeyTextIsPlain(fields[0].key);
        if HasKey(rest, p.key) {
          EmitHasKey(fields[1..], p.key);
          var f :| f in fields[1..] && KeyText(f.key) == p.key;
          KeyTextInjective(f.key, fields[0].key);
        }
        ConsCarriable(p, rest);
      }
    }
  }

  lemma ConsCarriable(p: Pair, rest: seq<Pair>)
    requires CarriablePair(p) && Carriable(rest) && !HasKey(rest, p.key)
    ensures Carriable([p] + rest)
  {
  }

  /** What a form writes as, reads as the form's own pairs. */
  lemma WrittenReadsBack(rules: Rules, form: Form)
    requires DistinctFields(form.fields) && NoAmpersand(form.fields)
    requires form.fields != [] && form.fields[0].value.Some?
    ensures FromUri(rules, Written(form)) == ReadItems(rules, form.scheme, Emit(form.fields))
  {
    var name, items := SchemeText(form.scheme), Emit(form.fields);
    var body := Join(Texts(items), '&');
    SchemeTextReadsBack(form.scheme);
    SeparatorAfter(name, body);
    EmitCarriable(form.fields);
    ParseOfJoin(items);
    assert Written(form)[..|name|] == name && Written(form)[|name| + 3..] == body;
  }

  lemma VisionIsDistinct(source: VisionSource, draft: Option<string>, sha: Option<string>, fields: seq<Field>)
    requires VisionFields(source, draft, sha) == Ok(fields)
    ensures DistinctFields(fields) && fields != [] && fields[0].value.Some?
  {
  }

  lemma PairIsDistinct(target: DirSource, draft: DirSource, fields: seq<Field>)
    requires PairFields(target, draft) == Ok(fields)
    ensures DistinctFields(fields) && fields != [] && fields[0].value.Some?
  {
  }

  lemma FormIsDistinct(m: Model, form: Form)
    requires FormOf(m) == Ok(form)
    ensures DistinctFields(form.fields)
    ensures form.fields != [] && form.fields[0].value.Some?
  {
    match m {
      case GgufVision(source) => VisionIsDistinct(source, None, None, form.fields);
      case GgufVisionSpeculative(files, draft, sha) => VisionIsDistinct(files, draft, sha, form.fields);
      case MlxSpeculative(target, draft) => PairIsDistinct(target, draft, form.fields);
      case TorchSpeculative(target, draft) => PairIsDistinct(target, draft, form.fields);
      case _ =>
    }
  }

  // ---------------------------------------------------------------- what parses can be written

  lemma {:induction false} LookupIsPlain(items: seq<Pair>, key: Key)
    requires Carriable(items)
    ensures Plain(Lookup(items, key))
  {
    if items != [] {
      assert CarriablePair(items[0]);
      LookupIsPlain(items[1..], key);
    }
  }

  /** A form for `m` under `scheme`, every value of it safe to write. */
  ghost predicate Writable(scheme: Scheme, m: Model) {
    FormOf(m).Ok? && FormOf(m).value.scheme == scheme && NoAmpersand(FormOf(m).value.fields)
  }

  lemma ReadTextIsWritable(rules: Rules, items: seq<Pair>)
    requires Carriable(items) && ReadText(rules, items).Ok?
    ensures var m := GgufText(ReadText(rules, items).value);
            Writable(GgufTextScheme, m) && Valid(rules, m)
  {
    forall k ensures Plain(Lookup(items, k)) {
      LookupIsPlain(items, k);
    }
  }

  lemma ReadDirIsWritable(rules: Rules, scheme: Scheme, items: seq<Pair>)
    requires Carriable(items) && ReadDir(rules, scheme, items).Ok?
    ensures var s := ReadDir(rules, scheme, items).value;
            && DirOk(rules, s)
            && DirFields(s, Repo, Prefix, Rev).Ok?
            && NoAmpersand(DirFields(s, Repo, Prefix, Rev).value)
  {
    forall k ensures Plain(Lookup(items, k)) {
      LookupIsPlain(items, k);
    }
  }

  lemma ReadPairIsWritable(rules: Rules, scheme: Scheme, items: seq<Pair>)
    requires Carriable(items) && ReadPair(rules, scheme, items).Ok?
    ensures var s := ReadPair(rules, scheme, items).value;
            && DirOk(rules, s.0) && DirOk(rules, s.1)
            && PairFields(s.0, s.1).Ok?
            && NoAmpersand(PairFields(s.0, s.1).value)
  {
    forall k ensures Plain(Lookup(items, k)) {
      LookupIsPlain(items, k);
    }
  }

  /** What the file part of a vision URI gives can be written, with a drafter that can be. */
  ghost predicate FilesWritable(rules: Rules, s: VisionSource, draft: Option<string>, sha: Option<string>) {
    && VisionOk(rules, s)
    && VisionFields(s, draft, sha).Ok?
    && NoAmpersand(VisionFields(s, draft, sha).value)
  }

  lemma HfFieldsArePlain(s: VisionSource, draft: Option<string>, sha: Option<string>)
    requires s.VisionHf? && VisionFields(s, draft, sha).Ok?
    requires '&' !in s.repo.text && Plain(s.repo.revision) && '&' !in s.model.at && '&' !in s.mmproj.at
    requires Plain(s.model.sha) && Plain(s.mmproj.sha) && Plain(draft) && Plain(sha)
    ensures NoAmpersand(VisionFields(s, draft, sha).value)
  {
  }

  lemma HfFilesAreWritable(rules: Rules, scheme: Scheme, items: seq<Pair>, draft: Option<string>, sha: Option<string>)
    requires Carriable(items) && ReadVisionFiles(rules, scheme, items).Ok?
    requires Lookup(items, Repo).Some? && Plain(draft) && Plain(sha)
    ensures FilesWritable(rules, ReadVisionFiles(rules, scheme, items).value, draft, sha)
  {
    forall k ensures Plain(Lookup(items, k)) {
      LookupIsPlain(items, k);
    }
    HfFieldsArePlain(ReadVisionFiles(rules, scheme, items).value, draft, sha);
  }

  lemma UrlFilesAreWritable(rules: Rules, scheme: Scheme, items: seq<Pair>, draft: Option<string>, sha: Option<string>)
    requires Carriable(items) && ReadVisionFiles(rules, scheme, items).Ok?
    requires Lookup(items, Repo).None? && Plain(draft) && Plain(sha)
    requires draft.Some? ==> '?' !in draft.value
    ensures FilesWritable(rules, ReadVisionFiles(rules, scheme, items).value, draft, sha)
  {
    LookupIsPlain(items, ModelFile);
    LookupIsPlain(items, Mmproj);
    LookupIsPlain(items, ModelSha);
    LookupIsPlain(items, MmprojSha);
  }

  lemma FilesAreWritable(rules: Rules, scheme: Scheme, items: seq<Pair>, draft: Option<string>, sha: Option<string>)
    requires Carriable(items) && ReadVisionFiles(rules, scheme, items).Ok?
    requires Plain(draft) && Plain(sha)
    requires ReadVisionFiles(rules, scheme, items).value.VisionUrl? && draft.Some? ==> '?' !in draft.value
    ensures FilesWritable(rules, ReadVisionFiles(rules, scheme, items).value, draft, sha)
  {
    if Lookup(items, Repo).Some? {
      HfFilesAreWritable(rules, scheme, items, draft, sha);
    } else {
      UrlFilesAreWritable(rules, scheme, items, draft, sha);
    }
  }

  lemma ReadVisionSpeculativeIsWritable(rules: Rules, items: seq<Pair>)
    requires Carriable(items) && ReadVisionSpeculative(rules, items).Ok?
    ensures var m := ReadVisionSpeculative(rules, items).value;
            Writable(GgufVisionSpeculativeScheme, m) && Valid(rules, m)
  {
    var m := ReadVisionSpeculative(rules, items).value;
    LookupIsPlain(items, Draft);
    LookupIsPlain(items, DraftSha);
    FilesAreWritable(rules, GgufVisionSpeculativeScheme, items, m.draft, m.draftSha);
  }

  lemma ReadIsWritable(rules: Rules, scheme: Scheme, items: seq<Pair>)
    requires Carriable(items) && ReadItems(rules, scheme, items).Ok?
    ensures var m := ReadItems(rules, scheme, items).value;
            Writable(scheme, m) && Valid(rules, m)
  {
    match scheme {
      case GgufTextScheme => ReadTextIsWritable(rules, items);
      case GgufVisionScheme => FilesAreWritable(rules, scheme, items, None, None);
      case GgufVisionSpeculativeScheme => ReadVisionSpeculativeIsWritable(rules, items);
      case MlxScheme => ReadDirIsWritable(rules, scheme, items);
      case CoreAiScheme => ReadDirIsWritable(rules, scheme, items);
      case TorchScheme => ReadDirIsWritable(rules, scheme, items);
      case OpenvinoScheme => ReadDirIsWritable(rules, scheme, items);
      case OnnxGenaiScheme => ReadDirIsWritable(rules, scheme, items);
      case MlxSpeculativeScheme => ReadPairIsWritable(rules, scheme, items);
      case TorchSpeculativeScheme => ReadPairIsWritable(rules, scheme, items);
    }
  }

  lemma ParsedIsWritable(rules: Rules, input: string, m: Model)
    requires FromUri(rules, input) == Ok(m)
    ensures FormOf(m).Ok? && NoAmpersand(FormOf(m).value.fields) && Valid(rules, m)
  {
    var at := FindSeparator(input, 0).value;
    var scheme := SchemeOf(input[..at]).value;
    ParsedIsCarriable(input[at + 3..]);
    ReadIsWritable(rules, scheme, ParsePairs(input[at + 3..]).items);
  }

  // ---------------------------------------------------------------- the round trips

  /** A model that renders is recovered from its URI exactly when no field holds an `&`. */
  lemma RenderThenParse(rules: Rules, m: Model)
    requires Valid(rules, m) && ToUri(m).Ok?
    ensures FromUri(rules, ToUri(m).value) == Ok(m) <==> NoAmpersand(FormOf(m).value.fields)
  {
    var form := FormOf(m).value;
    if NoAmpersand(form.fields) {
      FormIsDistinct(m, form);
      WrittenReadsBack(rules, form);
      FormReadsBack(rules, m, form);
    }
    if FromUri(rules, ToUri(m).value) == Ok(m) {
      ParsedIsWritable(rules, ToUri(m).value, m);
    }
  }

  /** Whatever parses renders, and the rendering parses to the same model. */
  lemma ParseThenRender(rules: Rules, input: string)
    ensures var m := FromUri(rules, input);
            m.Ok? ==> ToUri(m.value).Ok? && FromUri(rules, ToUri(m.value).value) == m
  {
    var m := FromUri(rules, input);
    if m.Ok? {
      ParsedIsWritable(rules, input, m.value);
      RenderThenParse(rules, m.value);
    }
  }

  /** Two such models with one URI are one model. */
  lemma RenderingIsInjective(rules: Rules, a: Model, b: Model)
    requires Valid(rules, a) && Valid(rules, b)
    requires FormOf(a).Ok? && NoAmpersand(FormOf(a).value.fields)
    requires FormOf(b).Ok? && NoAmpersand(FormOf(b).value.fields)
    ensures ToUri(a) == ToUri(b) <==> a == b
  {
    RenderThenParse(rules, a);
    RenderThenParse(rules, b);
  }

  lemma TwoTogether(x: Pair, y: Pair)
    ensures Join(Texts([x, y]), '&') == Text(x) + "&" + Text(y)
  {
    assert [x, y][1..] == [y] && [y][1..] == [];
    assert Texts([y]) == [Text(y)];
    assert Texts([x, y]) == [Text(x), Text(y)];
    assert [Text(x), Text(y)][1..] == [Text(y)];
  }

  lemma ThreeTogether(x: Pair, y: Pair, z: Pair)
    ensures Join(Texts([x, y, z]), '&') == Text(x) + "&" + Text(y) + "&" + Text(z)
  {
    assert [x, y, z][1..] == [y, z];
    TwoTogether(y, z);
    assert Texts([x, y, z]) == [Text(x)] + Texts([y, z]);
    assert ([Text(x)] + Texts([y, z]))[1..] == Texts([y, z]);
  }

  lemma EmitTwoOrThree(x: string, y: string, z: Option<string>)
    ensures Emit([Field(Repo, Some(x)), Field(Path, Some(y)), Field(Rev, z), Field(Sha, None)])
            == [Pair("repo", x), Pair("path", y)] + (if z.Some? then [Pair("rev", z.value)] else [])
  {
    var f := [Field(Repo, Some(x)), Field(Path, Some(y)), Field(Rev, z), Field(Sha, None)];
    assert f[1..] == [f[1], f[2], f[3]] && [f[1], f[2], f[3]][1..] == [f[2], f[3]] && [f[2], f[3]][1..] == [f[3]];
    assert Emit([f[3]]) == [];
    assert Emit([f[2], f[3]]) == if z.Some? then [Pair("rev", z.value)] else [];
  }

  /** Rendering is not injective where a path may hold an `&`. */
  lemma AmpersandCollides(repo: string, path: string, rev: string)
    ensures var a := GgufText(TextHf(HfRepo(repo, None, None), path + "&rev=" + rev, None));
            var b := GgufText(TextHf(HfRepo(repo, Some(rev), None), path, None));
            a != b && ToUri(a).Ok? && ToUri(a) == ToUri(b)
  {
    var long := path + "&rev=" + rev;
    var a := GgufText(TextHf(HfRepo(repo, None, None), long, None));
    var b := GgufText(TextHf(HfRepo(repo, Some(rev), None), path, None));
    EmitTwoOrThree(repo, long, None);
    EmitTwoOrThree(repo, path, Some(rev));
    TwoTogether(Pair("repo", repo), Pair("path", long));
    ThreeTogether(Pair("repo", repo), Pair("path", path), Pair("rev", rev));
    assert Emit(FormOf(a).value.fields) == [Pair("repo", repo), Pair("path", long)];
    assert Emit(FormOf(b).value.fields) == [Pair("repo", repo), Pair("path", path), Pair("rev", rev)];
    assert |long| > |path|;
    var x, y, z := Text(Pair("repo", repo)), Text(Pair("path", path)), Text(Pair("rev", rev));
    assert Text(Pair("path", long)) == y + "&" + z;
    assert x + "&" + (y + "&" + z) == x + "&" + y + "&" + z;
    assert Written(FormOf(a).value) == Written(FormOf(b).value);
  }
}
