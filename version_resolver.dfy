/**
 * Resolution of the TypeScript version a project pins, from its `yarn.lock`
 * or, failing that, its `package-lock.json` (src/index.ts, lines 9-53).
 *
 * The lock files are not read or parsed here: each is given as `None` when
 * the file does not exist, and otherwise as what its parser produced, `Err`
 * carrying the message of the error the parser threw.
 */
module VersionResolver {
  import opened Wrappers
  import opened JsValues

  /** The `type` field of what the yarn lock-file parser returns. */
  datatype ParseStatus = Success | Merge | Conflict

  /**
   * A parsed `yarn.lock`: its status, and the entries of its `object` in
   * `Object.keys` order, each a dependency pattern and its record.
   */
  datatype YarnLock = YarnLock(status: ParseStatus, entries: seq<(string, Json)>)

  const NoLockFileFound := "no lock file found."
  const YarnParseFailed := "failed to parse yarn.lock"
  const NotInYarnLock := "could not find typescript in yarn.lock"
  const NotInPackageLock := "could not find typescript in package-lock.json"
  /** The message of both branches for a non-string version, spelled as the source spells it. */
  const VersionNotString := "could not par typescript version from yarn.lock"
  /** The TypeError a JavaScript engine (V8) throws for `null['dependencies']`. */
  const NullDependencies := "Cannot read properties of null (reading 'dependencies')"

  // The regular-expression test `^typescript@.*` on a key: it starts with `typescript@`, case-sensitively.
  predicate IsTypescriptKey(key: string)
    ensures IsTypescriptKey(key) <==> |key| >= 11 && key[..11] == "typescript@"
  {
    "typescript@" <= key
  }

  /** The match is anchored at the start of the key and does not ignore case. */
  lemma KeyMatchIsAnchoredAndCaseSensitive()
    ensures IsTypescriptKey("typescript@^5.0.0")
    ensures !IsTypescriptKey("TypeScript@5.0.0")
    ensures !IsTypescriptKey("@types/typescript@1")
  {
    assert "TypeScript@5.0.0"[4] == 'S';
    assert "@types/typescript@1"[0] == '@';
  }

  /** Entry `i` is the first entry whose key names typescript. */
  ghost predicate IsFirstTypescriptEntry(entries: seq<(string, Json)>, i: int) {
    0 <= i < |entries| && IsTypescriptKey(entries[i].0) &&
    forall j :: 0 <= j < i ==> !IsTypescriptKey(entries[j].0)
  }

  /** `Object.keys(object).find(...)`, as the index of the key found. */
  function FindTypescriptEntry(entries: seq<(string, Json)>): (r: Option<nat>)
    ensures r.Some? ==> IsFirstTypescriptEntry(entries, r.value)
    ensures r.None? <==> forall j :: 0 <= j < |entries| ==> !IsTypescriptKey(entries[j].0)
  {
    if |entries| == 0 then None
    else if IsTypescriptKey(entries[0].0) then Some(0)
    else
      match FindTypescriptEntry(entries[1..])
      case None => None
      case Some(i) => Some(i + 1)
  }

  /** The check `typeof tsVersion !== 'string'` shared by both branches. */
  function VersionOf(tsVersion: JsValue): (r: Result<string, string>)
    ensures r.Ok? <==> IsString(tsVersion)
    ensures r.Ok? ==> tsVersion == Defined(Str(r.value))
    ensures r.Err? ==> r.error == VersionNotString
  {
    if IsString(tsVersion) then Ok(tsVersion.value.s) else Err(VersionNotString)
  }

  /** `info && info['version']`: a falsy record is itself the version read. */
  function YarnVersionField(info: Json): (tsVersion: JsValue)
    ensures info.Obj? ==> tsVersion == Member(Defined(info), "version")
    ensures info == Str("") ==> tsVersion == Defined(Str(""))
    ensures IsString(tsVersion) ==>
      info == Str("") || (info.Obj? && "version" in info.fields && info.fields["version"] == tsVersion.value)
  {
    if Falsy(Defined(info)) then Defined(info) else Member(Defined(info), "version")
  }

  /** parseTSVersionFromYarnLockFile (src/index.ts:23-39). */
  function FromYarnLock(parsed: Result<YarnLock, string>): (r: Result<string, string>)
    ensures parsed.Err? ==> r == Err(parsed.error)
    ensures parsed.Ok? && parsed.value.status != Success ==> r == Err(YarnParseFailed)
    ensures parsed.Ok? && parsed.value.status == Success ==>
      (r == Err(NotInYarnLock) <==>
        forall j :: 0 <= j < |parsed.value.entries| ==> !IsTypescriptKey(parsed.value.entries[j].0))
    ensures parsed.Ok? && parsed.value.status == Success ==>
      forall i :: IsFirstTypescriptEntry(parsed.value.entries, i) ==>
        r == VersionOf(YarnVersionField(parsed.value.entries[i].1))
    ensures r.Ok? ==>
      parsed.Ok? && parsed.value.status == Success &&
      exists i :: IsFirstTypescriptEntry(parsed.value.entries, i) &&
        YarnVersionField(parsed.value.entries[i].1) == Defined(Str(r.value))
  {
    match parsed
    case Err(e) => Err(e)
    case Ok(lock) =>
      if lock.status != Success then Err(YarnParseFailed)
      else
        match FindTypescriptEntry(lock.entries)
        case None => Err(NotInYarnLock)
        case Some(i) => VersionOf(YarnVersionField(lock.entries[i].1))
  }

  /** The chain `json.dependencies.typescript.version` through objects' own fields. */
  function PackageLockVersionField(json: Json): JsValue {
    Member(Member(Member(Defined(json), "dependencies"), "typescript"), "version")
  }

  /** parseTSVersionFromPackageLockFile (src/index.ts:41-53). */
  function FromPackageLock(parsed: Result<Json, string>): (r: Result<string, string>)
    ensures parsed.Err? ==> r == Err(parsed.error)
    ensures parsed == Ok(Null) ==> r == Err(NullDependencies)
    ensures parsed.Ok? && parsed.value != Null && Falsy(Member(Defined(parsed.value), "dependencies")) ==>
      r == Err(NotInPackageLock)
    ensures parsed.Ok? && parsed.value != Null ==>
      (r == Err(NotInPackageLock) <==> Falsy(Member(Member(Defined(parsed.value), "dependencies"), "typescript")))
    ensures (parsed.Ok? && parsed.value != Null &&
             !Falsy(Member(Member(Defined(parsed.value), "dependencies"), "typescript")) &&
             !IsString(PackageLockVersionField(parsed.value))) ==>
      r == Err(VersionNotString)
    ensures r.Ok? <==> parsed.Ok? && IsString(PackageLockVersionField(parsed.value))
    ensures r.Ok? ==> PackageLockVersionField(parsed.value) == Defined(Str(r.value))
  {
    match parsed
    case Err(e) => Err(e)
    case Ok(json) =>
      if json == Null then Err(NullDependencies)
      else
        var declared := Member(Defined(json), "dependencies");
        var dependencies := if Falsy(declared) then Defined(Obj(map[])) else declared;
        var info := Member(dependencies, "typescript");
        if Falsy(info) then Err(NotInPackageLock)
        else VersionOf(Member(info, "version"))
  }

  /** parseTSVersion (src/index.ts:9-21): `yarn.lock` first, then `package-lock.json`. */
  function ParseTSVersion(yarnLock: Option<Result<YarnLock, string>>,
                          packageLock: Option<Result<Json, string>>): (r: Result<string, string>)
    ensures yarnLock.None? && packageLock.None? ==> r == Err(NoLockFileFound)
  {
    match yarnLock
    case Some(content) => FromYarnLock(content)
    case None =>
      match packageLock
      case Some(content) => FromPackageLock(content)
      case None => Err(NoLockFileFound)
  }

  /** With a `yarn.lock` present, `package-lock.json` is never consulted. */
  lemma YarnLockTakesPrecedence(yarnLock: Result<YarnLock, string>,
                                packageLock: Option<Result<Json, string>>)
    ensures ParseTSVersion(Some(yarnLock), packageLock) == FromYarnLock(yarnLock)
  {
  }

  /** Without a `yarn.lock`, the version comes from `package-lock.json`. */
  lemma PackageLockIsTheFallback(packageLock: Result<Json, string>)
    ensures ParseTSVersion(None, Some(packageLock)) == FromPackageLock(packageLock)
  {
  }

  /** Entries before the first typescript key have no effect on the yarn result. */
  lemma YarnSkipsUnrelatedEntries(status: ParseStatus, before: seq<(string, Json)>,
                                  after: seq<(string, Json)>)
    requires forall j :: 0 <= j < |before| ==> !IsTypescriptKey(before[j].0)
    ensures FromYarnLock(Ok(YarnLock(status, before + after))) == FromYarnLock(Ok(YarnLock(status, after)))
  {
    var all := before + after;
    if status == Success {
      match FindTypescriptEntry(after)
      case None =>
        forall j | 0 <= j < |all| ensures !IsTypescriptKey(all[j].0) {
          if j >= |before| { assert all[j] == after[j - |before|]; }
        }
      case Some(i) =>
        assert IsFirstTypescriptEntry(all, |before| + i) by {
          forall j | 0 <= j < |before| + i ensures !IsTypescriptKey(all[j].0) {
            if j >= |before| { assert all[j] == after[j - |before|]; }
          }
        }
    }
  }

  /** The first typescript key decides the yarn result, whatever follows it. */
  lemma YarnFirstEntryWins(key: string, info: Json, after: seq<(string, Json)>)
    requires IsTypescriptKey(key)
    ensures FromYarnLock(Ok(YarnLock(Success, [(key, info)] + after))) == VersionOf(YarnVersionField(info))
  {
  }

  /**
   * Only `typeof` is checked: an empty version string is accepted, and so is a
   * record that is itself the empty string, because `"" && ...` is `""`.
   */
  lemma YarnAcceptsEmptyVersions(key: string)
    requires IsTypescriptKey(key)
    ensures FromYarnLock(Ok(YarnLock(Success, [(key, Obj(map["version" := Str("")]))]))) == Ok("")
    ensures FromYarnLock(Ok(YarnLock(Success, [(key, Str(""))]))) == Ok("")
  {
  }

  /** A yarn lock pinning typescript 4.9.5 behind another package resolves to exactly "4.9.5". */
  lemma YarnExample()
    ensures ParseTSVersion(
              Some(Ok(YarnLock(Success, [
                ("@types/node@^18.0.0", Obj(map["version" := Str("18.19.3")])),
                ("typescript@^4.9.0", Obj(map["version" := Str("4.9.5")]))]))),
              Some(Ok(Obj(map["dependencies" := Obj(map["typescript" := Obj(map["version" := Str("5.1.0")])])]))))
            == Ok("4.9.5")
  {
    var entries := [("@types/node@^18.0.0", Obj(map["version" := Str("18.19.3")])),
                    ("typescript@^4.9.0", Obj(map["version" := Str("4.9.5")]))];
    assert !IsTypescriptKey(entries[0].0) by { assert entries[0].0[0] == '@'; }
    assert IsFirstTypescriptEntry(entries, 1);
  }

  /** `{"dependencies":{"typescript":{"version":"5.1.0"}}}` resolves to "5.1.0". */
  lemma PackageLockExample()
    ensures ParseTSVersion(None,
              Some(Ok(Obj(map["dependencies" := Obj(map["typescript" := Obj(map["version" := Str("5.1.0")])])]))))
            == Ok("5.1.0")
  {
  }
}
