/** `UploadService::save`: the checks an uploaded image goes through before it is
    stored, and the public path under which it is then served. The directory
    creation and the file move are answers of the file system, taken from `Oracles`. */
module Uploads {
  import opened Values
  import opened Settings
  import opened Http

  /** `UPLOAD_ERR_OK`. */
  const UploadErrOk := 0

  /** The maximum size when the configuration sets none: 5 MB. */
  const DefaultMaxFileSize := 5 * 1024 * 1024

  /** The entry of `$_FILES` for one uploaded file. `error` is None when the entry
      carries no integer error code. */
  datatype UploadedFile = UploadedFile(name: string, size: int, error: Option<int>, tmpName: string)

  const Misconfigured := Error("Upload path misconfigured", 500)
  const UploadFailed := Error("File upload failed", 400)
  const UnsupportedType := Error("Unsupported file type", 422)
  const TooLarge := Error("File exceeds maximum size", 422)
  const NoDirectory := Error("Unable to create upload directory", 500)
  const NotStored := Error("Failed to store uploaded file", 500)

  // ---------------------------------------------------------------- pathinfo

  /** The part of `s` after the last `c`; all of `s` when it holds no `c`. */
  function AfterLast(s: string, c: char): (r: string)
    ensures |r| <= |s| && r == s[|s| - |r|..]
    ensures c !in r
    ensures |r| < |s| ==> s[|s| - |r| - 1] == c
    ensures c !in s ==> r == s
  {
    if s == [] then []
    else if s[|s| - 1] == c then []
    else
      var r := AfterLast(s[..|s| - 1], c) + [s[|s| - 1]];
      assert s[..|s| - 1] == s[..|s| - 1];
      r
  }

  /** `s` without its trailing slashes. */
  function TrimSlashes(s: string): (r: string)
    ensures |r| <= |s| && r == s[..|r|]
    ensures r == [] || r[|r| - 1] != '/'
    ensures forall i :: |r| <= i < |s| ==> s[i] == '/'
  {
    if s != [] && s[|s| - 1] == '/' then
      var r := TrimSlashes(s[..|s| - 1]);
      assert s[..|s| - 1][..|r|] == s[..|r|];
      r
    else s
  }

  /** `basename($path)`: the last component of the path. */
  function Basename(path: string): (r: string)
    ensures '/' !in r
  {
    AfterLast(TrimSlashes(path), '/')
  }

  /** `pathinfo($name, PATHINFO_EXTENSION)`: what follows the last dot of the base
      name, or the empty string when the base name has no dot. */
  function Extension(name: string): (r: string)
    ensures '.' !in r && '/' !in r
  {
    var base := Basename(name);
    if '.' in base then AfterLast(base, '.') else ""
  }

  // ---------------------------------------------------------------- the checks

  /** `$this->config['uploads'][$type] ?? null`, as a truthiness test: missing, "" and "0" fail. */
  predicate PathConfigured(config: Config, kind: string) {
    kind in config.uploadPaths && TruthyString(config.uploadPaths[kind])
  }

  /** `$config['uploads']['allowed_extensions'] ?? []`. */
  function AllowedExtensions(config: Config): seq<string> {
    config.allowedExtensions.GetOr([])
  }

  /** `$config['uploads']['max_file_size'] ?? (5 * 1024 * 1024)`. */
  function MaxFileSize(config: Config): int {
    config.maxFileSize.GetOr(DefaultMaxFileSize)
  }

  /** The lowercased extension `save` compares and keeps. */
  function SavedExtension(file: UploadedFile): string {
    Lower(Extension(file.name))
  }

  /** `!($allowed && !in_array($ext, $allowed, true))`: an empty list allows everything. */
  predicate ExtensionAllowed(config: Config, ext: string) {
    AllowedExtensions(config) == [] || ext in AllowedExtensions(config)
  }

  /** `uniqid($type . '_', true) . '.' . $ext`. */
  function StoredName(kind: string, uniqueId: string, ext: string): string {
    kind + "_" + uniqueId + "." + ext
  }

  /** `sprintf('/uploads/%s/%s', $type, $filename)`. */
  function PublicPath(kind: string, filename: string): string {
    "/uploads/" + kind + "/" + filename
  }

  /** `save($type, $file)`: the first failing check ends the request with its response;
      otherwise the file is stored and its public path returned. */
  function Save(config: Config, o: Oracles, kind: string, file: UploadedFile): (r: Outcome<string>)
    ensures r.Exit? ==> r.response.status in {400, 422, 500}
  {
    if !PathConfigured(config, kind) then Exit(Misconfigured)
    else if file.error != Some(UploadErrOk) then Exit(UploadFailed)
    else if !ExtensionAllowed(config, SavedExtension(file)) then Exit(UnsupportedType)
    else if file.size > MaxFileSize(config) then Exit(TooLarge)
    else if !o.directoryReady then Exit(NoDirectory)
    else if !o.fileMoved then Exit(NotStored)
    else Ok(PublicPath(kind, StoredName(kind, o.uniqueId, SavedExtension(file))))
  }

  // ---------------------------------------------------------------- the chain as a list

  /** One check of the chain: whether it passes, and the response when it does not. */
  datatype Gate = Gate(passes: bool, failure: Response)

  /** The checks of `save`, in the order `save` makes them. */
  function Gates(config: Config, o: Oracles, kind: string, file: UploadedFile): (g: seq<Gate>)
    ensures |g| == 6
  {
    [ Gate(PathConfigured(config, kind), Misconfigured),
      Gate(file.error == Some(UploadErrOk), UploadFailed),
      Gate(ExtensionAllowed(config, SavedExtension(file)), UnsupportedType),
      Gate(file.size <= MaxFileSize(config), TooLarge),
      Gate(o.directoryReady, NoDirectory),
      Gate(o.fileMoved, NotStored) ]
  }

  /** The response of the first gate that does not pass, if any. */
  function FirstFailure(gates: seq<Gate>): (r: Option<Response>)
    ensures r.None? <==> forall i :: 0 <= i < |gates| ==> gates[i].passes
    ensures r.Some? ==> exists i :: 0 <= i < |gates| && !gates[i].passes && gates[i].failure == r.value
                                    && forall j :: 0 <= j < i ==> gates[j].passes
  {
    if gates == [] then None
    else if !gates[0].passes then Some(gates[0].failure)
    else
      var r := FirstFailure(gates[1..]);
      if r.Some? then
        var i :| 0 <= i < |gates[1..]| && !gates[1..][i].passes && gates[1..][i].failure == r.value
                 && forall j :: 0 <= j < i ==> gates[1..][j].passes;
        assert gates[i + 1] == gates[1..][i];
        assert forall j :: 1 <= j < i + 1 ==> gates[j] == gates[1..][j - 1];
        r
      else
        assert forall i :: 1 <= i < |gates| ==> gates[i] == gates[1..][i - 1];
        r
  }

  /** `save` makes its checks in the order of `Gates`: it fails with the response of the
      first one that does not pass, and succeeds exactly when all pass. */
  lemma SaveFollowsGates(config: Config, o: Oracles, kind: string, file: UploadedFile)
    ensures var g := FirstFailure(Gates(config, o, kind, file));
      && (g.Some? ==> Save(config, o, kind, file) == Exit(g.value))
      && (g.None? ==> Save(config, o, kind, file).Ok?)
  {
    var g := Gates(config, o, kind, file);
    FirstFailureOfSix(g[0], g[1], g[2], g[3], g[4], g[5]);
    assert g == [g[0], g[1], g[2], g[3], g[4], g[5]];
  }

  /** The first failure of a chain of six checks, written out. */
  lemma FirstFailureOfSix(a: Gate, b: Gate, c: Gate, d: Gate, e: Gate, f: Gate)
    ensures FirstFailure([a, b, c, d, e, f])
         == if !a.passes then Some(a.failure) else if !b.passes then Some(b.failure)
            else if !c.passes then Some(c.failure) else if !d.passes then Some(d.failure)
            else if !e.passes then Some(e.failure) else if !f.passes then Some(f.failure)
            else None
  {
    var s0 := [a, b, c, d, e, f];
    assert s0[1..] == [b, c, d, e, f];
    assert [b, c, d, e, f][1..] == [c, d, e, f];
    assert [c, d, e, f][1..] == [d, e, f];
    assert [d, e, f][1..] == [e, f];
    assert [e, f][1..] == [f];
    assert [f][1..] == [];
    assert FirstFailure([f]) == if f.passes then None else Some(f.failure);
    assert FirstFailure([e, f]) == if e.passes then FirstFailure([f]) else Some(e.failure);
    assert FirstFailure([d, e, f]) == if d.passes then FirstFailure([e, f]) else Some(d.failure);
    assert FirstFailure([c, d, e, f]) == if c.passes then FirstFailure([d, e, f]) else Some(c.failure);
    assert FirstFailure([b, c, d, e, f]) == if b.passes then FirstFailure([c, d, e, f]) else Some(b.failure);
  }

  /** A successful `save` returns `/uploads/<type>/<type>_<unique>.<ext>`. */
  lemma SavedPathShape(config: Config, o: Oracles, kind: string, file: UploadedFile)
    requires Save(config, o, kind, file).Ok?
    ensures Save(config, o, kind, file).value
            == "/uploads/" + kind + "/" + kind + "_" + o.uniqueId + "." + SavedExtension(file)
  {
    var ext := SavedExtension(file);
    assert Save(config, o, kind, file).value == PublicPath(kind, StoredName(kind, o.uniqueId, ext));
    PathParts(kind, o.uniqueId, ext);
  }

  lemma PathParts(kind: string, uniqueId: string, ext: string)
    ensures PublicPath(kind, StoredName(kind, uniqueId, ext)) == "/uploads/" + kind + "/" + kind + "_" + uniqueId + "." + ext
  {
  }

  /** Nothing of the original file name but its lowercased extension reaches the path:
      two files with the same extension are stored under the same path. */
  lemma SavedPathIgnoresName(config: Config, o: Oracles, kind: string, f1: UploadedFile, f2: UploadedFile)
    requires Save(config, o, kind, f1).Ok? && Save(config, o, kind, f2).Ok?
    requires SavedExtension(f1) == SavedExtension(f2)
    ensures Save(config, o, kind, f1).value == Save(config, o, kind, f2).value
  {
    SavedPathShape(config, o, kind, f1);
    SavedPathShape(config, o, kind, f2);
  }

  /** The size limit is inclusive. */
  lemma SizeAtLimitAccepted(config: Config, o: Oracles, kind: string, file: UploadedFile)
    requires PathConfigured(config, kind) && file.error == Some(UploadErrOk)
    requires ExtensionAllowed(config, SavedExtension(file)) && o.directoryReady && o.fileMoved
    requires file.size == MaxFileSize(config)
    ensures Save(config, o, kind, file).Ok?
  {
  }

  /** A missing upload path, and one configured as "" or "0" (both falsy in PHP), fail
      before anything else is looked at. */
  lemma FalsyPathMisconfigured(config: Config, o: Oracles, kind: string, file: UploadedFile)
    requires kind !in config.uploadPaths || config.uploadPaths[kind] == "" || config.uploadPaths[kind] == "0"
    ensures Save(config, o, kind, file) == Exit(Error("Upload path misconfigured", 500))
  {
  }

  /** Without a configured maximum, the limit is 5 MB. */
  lemma DefaultLimit(config: Config)
    requires config.maxFileSize.None?
    ensures MaxFileSize(config) == 5242880
  {
  }

  /** An empty allow-list lets every extension through. */
  lemma EmptyAllowListAcceptsAll(config: Config, ext: string)
    requires AllowedExtensions(config) == []
    ensures ExtensionAllowed(config, ext)
  {
  }

  /** Extensions are compared after lowercasing, so the case of the file name's
      extension does not matter. */
  lemma ExtensionCheckIgnoresCase(config: Config, f1: UploadedFile, f2: UploadedFile)
    requires Lower(Extension(f1.name)) == Lower(Extension(f2.name))
    ensures ExtensionAllowed(config, SavedExtension(f1)) == ExtensionAllowed(config, SavedExtension(f2))
  {
  }

  /** Whatever precedes the last occurrence of `c` is dropped. */
  lemma {:induction false} AfterLastSuffix(s: string, c: char, t: string)
    requires c !in t
    ensures AfterLast(s + [c] + t, c) == t
    decreases |t|
  {
    var u := s + [c] + t;
    if t != [] {
      var t' := t[..|t| - 1];
      assert u[..|u| - 1] == s + [c] + t';
      AfterLastSuffix(s, c, t');
      assert t == t' + [t[|t| - 1]];
    }
  }

  /** The extension of `<base>.<ext>` is `<ext>`, whatever dots the base holds: for
      `photo.JPG` it is "JPG", which the allow-list check then lowercases. */
  lemma ExtensionOfDottedName(base: string, ext: string)
    requires '/' !in base && '/' !in ext && '.' !in ext
    ensures Extension(base + "." + ext) == ext
  {
    var name := base + "." + ext;
    assert name[|name| - 1] != '/' by {
      if ext == [] { assert name[|name| - 1] == '.'; }
      else { assert name[|name| - 1] == ext[|ext| - 1]; }
    }
    assert TrimSlashes(name) == name;
    assert '/' !in name;
    assert Basename(name) == name;
    assert name[|base|] == '.';
    AfterLastSuffix(base, '.', ext);
  }

  /** A name without a dot has the empty extension, so only an empty allow-list takes it. */
  lemma NoDotNoExtension(name: string)
    requires '.' !in name
    ensures Extension(name) == ""
  {
    var b := Basename(name);
    assert forall c :: c in b ==> c in TrimSlashes(name);
    assert forall c :: c in TrimSlashes(name) ==> c in name;
  }
}
