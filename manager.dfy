/**
 * The predictor registry: the identifiers of the serialised models found in the
 * configured location, and loading one of them into a predictor. The directory
 * scan is an input (the paths the glob matched at the time of the call), and so
 * is reading and unpickling a file.
 */
module Manager {
  import opened Python

  /** A trained estimator as loaded from its file: two opaque operations. */
  datatype Model = Model(
    predict: Value -> Result<Value, Raised>,
    predictProba: Value -> Result<Value, Raised>)

  /** `Predictor`: a thin forwarder to the estimator it wraps. */
  datatype Predictor = Predictor(model: Model)

  /** `Predictor.predict(features)`, given the features' values. */
  function Predict(p: Predictor, values: Value): (r: Result<Value, Error>)
    ensures r.Ok? <==> p.model.predict(values).Ok?
    ensures r.Ok? ==> r.value == p.model.predict(values).value
    ensures r.Err? ==> r.error == Foreign(p.model.predict(values).error)
  {
    match p.model.predict(values)
    case Ok(v) => Ok(v)
    case Err(x) => Err(Foreign(x))
  }

  /** `Predictor.predict_proba(features)`, given the features' values. */
  function PredictProba(p: Predictor, values: Value): (r: Result<Value, Error>)
    ensures r.Ok? <==> p.model.predictProba(values).Ok?
    ensures r.Ok? ==> r.value == p.model.predictProba(values).value
    ensures r.Err? ==> r.error == Foreign(p.model.predictProba(values).error)
  {
    match p.model.predictProba(values)
    case Ok(v) => Ok(v)
    case Err(x) => Err(Foreign(x))
  }

  /** The model store as one call to `load` sees it: the configured location,
      the paths matching the glob `<location>**` then `*.joblib` right now, and reading plus
      unpickling the file at a path. */
  datatype Storage = Storage(
    location: string,
    matched: seq<string>,
    read: string -> Result<Model, Raised>)

  /** The only supported serialisation. */
  const Extension := "joblib"

  predicate IsSeparator(c: char) {
    c == '/' || c == '\\'
  }

  predicate NoSeparator(s: string) {
    forall k :: 0 <= k < |s| ==> !IsSeparator(s[k])
  }

  /** What remains after a Windows drive prefix `X:` is removed. */
  function WithoutDrive(path: string): (r: string)
    ensures r <= path || (|path| >= 2 && r == path[2..])
  {
    if |path| >= 2 && path[1] == ':' then path[2..] else path
  }

  /** Everything after the last `/` or `\`. */
  function AfterLastSeparator(path: string): (name: string)
    ensures NoSeparator(name)
    ensures |name| <= |path| && name == path[|path| - |name|..]
    ensures |name| < |path| ==> IsSeparator(path[|path| - |name| - 1])
  {
    if path == [] then []
    else if IsSeparator(path[|path| - 1]) then []
    else AfterLastSeparator(path[..|path| - 1]) + [path[|path| - 1]]
  }

  /** `ntpath.basename`. */
  function Basename(path: string): string {
    AfterLastSeparator(WithoutDrive(path))
  }

  predicate AllDots(s: string) {
    forall k :: 0 <= k < |s| ==> s[k] == '.'
  }

  /** The index of the last `.` in `s`, if any. */
  function LastDot(s: string): (r: Option<nat>)
    ensures r.Some? ==> r.value < |s| && s[r.value] == '.'
    ensures r.Some? ==> forall k :: r.value < k < |s| ==> s[k] != '.'
    ensures r.None? ==> forall k :: 0 <= k < |s| ==> s[k] != '.'
  {
    if s == [] then None
    else if s[|s| - 1] == '.' then Some(|s| - 1)
    else
      LastDot(s[..|s| - 1])
  }

  /** `os.path.splitext` of a name without separators: split at the last dot,
      unless only dots precede it (a leading-dot name has no extension). */
  function SplitExt(name: string): (string, string) {
    match LastDot(name)
    case None => (name, "")
    case Some(i) => if AllDots(name[..i]) then (name, "") else (name[..i], name[i..])
  }

  /** The identifier a model file is known by: its base name without its last
      extension. */
  function IdentifierOf(path: string): (id: string)
    ensures NoSeparator(id)
  {
    var name := Basename(path);
    var root := SplitExt(name).0;
    assert root == name[..|root|];
    root
  }

  /** `PredictorManager.available_models`: one identifier per matched path, in
      order, duplicates kept. */
  function AvailableModels(matched: seq<string>): (ids: seq<string>)
    ensures |ids| == |matched|
    ensures forall i :: 0 <= i < |matched| ==> ids[i] == IdentifierOf(matched[i])
  {
    seq(|matched|, i requires 0 <= i < |matched| => IdentifierOf(matched[i]))
  }

  /** `os.path.join(a, b)` on POSIX. */
  function Join(a: string, b: string): string {
    if |b| > 0 && b[0] == '/' then b
    else if a == [] || a[|a| - 1] == '/' then a + b
    else a + "/" + b
  }

  /** The file `load` opens for an identifier. */
  function ArtifactPath(location: string, identifier: string): string {
    Join(location, identifier + "." + Extension)
  }

  function NotLoadableMessage(identifier: string): string {
    "Model with identifier '" + identifier + "' cannot be loaded"
  }

  /** `PredictorManager.load`: the listing is taken afresh on every call; an
      identifier outside it is refused, any other is read from its file. */
  function Load(identifier: string, storage: Storage): (r: Result<Predictor, Error>)
    ensures r.Err? && r.error.NoLoadablePredictorException? <==> identifier !in AvailableModels(storage.matched)
    ensures identifier !in AvailableModels(storage.matched) ==>
              r == Err(NoLoadablePredictorException(NotLoadableMessage(identifier)))
    ensures r.Ok? <==>
              identifier in AvailableModels(storage.matched) &&
              storage.read(ArtifactPath(storage.location, identifier)).Ok?
    ensures r.Ok? ==> r.value == Predictor(storage.read(ArtifactPath(storage.location, identifier)).value)
  {
    if identifier !in AvailableModels(storage.matched) then
      Err(NoLoadablePredictorException(NotLoadableMessage(identifier)))
    else
      match storage.read(ArtifactPath(storage.location, identifier))
      case Ok(model) => Ok(Predictor(model))
      case Err(x) => Err(Foreign(x))
  }

  /** A listed identifier never contains a separator, so the file `load`
      opens for it lies directly inside the configured location. */
  lemma ListedArtifactInsideLocation(identifier: string, storage: Storage)
    requires identifier in AvailableModels(storage.matched)
    ensures NoSeparator(identifier)
    ensures var name := identifier + "." + Extension;
            ArtifactPath(storage.location, identifier) ==
              if storage.location == [] || storage.location[|storage.location| - 1] == '/'
              then storage.location + name
              else storage.location + "/" + name
  {
    var i :| 0 <= i < |storage.matched| && AvailableModels(storage.matched)[i] == identifier;
    var b := identifier + "." + Extension;
    assert b[0] != '/' by {
      if identifier != [] { assert b[0] == identifier[0]; }
    }
  }

  /** Naming a file `<dir>/<x>.joblib` makes `x` its identifier, whenever `x`
      has no separator and is not made of dots only. */
  lemma {:induction false} IdentifierOfArtifactName(dir: string, x: string)
    requires dir != []
    requires NoSeparator(x)
    requires !AllDots(x)
    ensures IdentifierOf(dir + "/" + x + "." + Extension) == x
  {
    var name := x + "." + Extension;
    var path := dir + "/" + name;
    ArtifactNameHasNoSeparator(x);
    BasenameOfArtifactPath(dir, name);
    SplitExtOfArtifactName(x);
    IdentifierOfUnfold(path);
    ArtifactPathShape(dir, x);
  }

  lemma ArtifactPathShape(dir: string, x: string)
    ensures dir + "/" + x + "." + Extension == dir + "/" + (x + "." + Extension)
  {
  }

  lemma IdentifierOfUnfold(path: string)
    ensures IdentifierOf(path) == SplitExt(Basename(path)).0
  {
  }

  lemma ArtifactNameHasNoSeparator(x: string)
    requires NoSeparator(x)
    ensures NoSeparator(x + "." + Extension)
  {
    var name := x + "." + Extension;
    forall k | 0 <= k < |name| ensures !IsSeparator(name[k]) {
      if k < |x| { assert name[k] == x[k]; }
    }
  }

  /** The drive prefix, if any, ends before the last separator. */
  lemma {:induction false} BasenameOfArtifactPath(dir: string, name: string)
    requires dir != [] && NoSeparator(name)
    ensures Basename(dir + "/" + name) == name
  {
    var path := dir + "/" + name;
    if |path| >= 2 && path[1] == ':' {
      assert |dir| >= 2;
      assert path[2..] == dir[2..] + "/" + name;
      BasenameOfSuffix(dir[2..], name);
    } else {
      BasenameOfSuffix(dir, name);
    }
  }

  /** The last dot is the one before the extension. */
  lemma {:induction false} SplitExtOfArtifactName(x: string)
    requires !AllDots(x)
    ensures SplitExt(x + "." + Extension).0 == x
  {
    var name := x + "." + Extension;
    NoDotInExtension();
    LastDotOfSuffix(x, Extension);
    assert name[..|x|] == x;
  }

  lemma NoDotInExtension()
    ensures forall k :: 0 <= k < |Extension| ==> Extension[k] != '.'
  {
  }

  lemma {:induction false} BasenameOfSuffix(prefix: string, name: string)
    requires NoSeparator(name)
    ensures AfterLastSeparator(prefix + "/" + name) == name
  {
    if name == [] {
    } else {
      var p := prefix + "/" + name;
      var init := name[..|name| - 1];
      assert p[..|p| - 1] == prefix + "/" + init;
      assert !IsSeparator(p[|p| - 1]) by { assert p[|p| - 1] == name[|name| - 1]; }
      BasenameOfSuffix(prefix, init);
      assert name == init + [name[|name| - 1]];
    }
  }

  lemma {:induction false} LastDotOfSuffix(x: string, ext: string)
    requires forall k :: 0 <= k < |ext| ==> ext[k] != '.'
    ensures LastDot(x + "." + ext) == Some(|x|)
  {
    if ext == [] {
      assert (x + "." + ext)[|x|] == '.';
    } else {
      var s := x + "." + ext;
      var init := ext[..|ext| - 1];
      assert s[..|s| - 1] == x + "." + init;
      assert s[|s| - 1] == ext[|ext| - 1];
      LastDotOfSuffix(x, init);
    }
  }

  /** The listing reflects the files present at the time of the call: a model
      stored since an earlier, refused call is loadable now, with no restart. */
  lemma ListingFollowsStorage(identifier: string, before: Storage, after: Storage, path: string)
    requires identifier !in AvailableModels(before.matched)
    requires path in after.matched && IdentifierOf(path) == identifier
    ensures Load(identifier, before).Err? && Load(identifier, before).error.NoLoadablePredictorException?
    ensures !(Load(identifier, after).Err? && Load(identifier, after).error.NoLoadablePredictorException?)
  {
    var i :| 0 <= i < |after.matched| && after.matched[i] == path;
    assert AvailableModels(after.matched)[i] == identifier;
  }
}
