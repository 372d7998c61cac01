/**
 * The action's entry point `main` (src/index.ts:55-88): pick the working
 * directory, require its `tsconfig.json`, resolve the pinned TypeScript
 * version, load that compiler, collect its semantic diagnostics and fail the
 * run when any of them is an error.
 *
 * The filesystem, the compiler loader and the diagnostics service are
 * parameters; the failure signal `setFailed` is the returned `Outcome`.
 */
module Action {
  import opened Wrappers
  import opened JsValues
  import opened VersionResolver

  /** The categories a TypeScript diagnostic carries. */
  datatype Category = Error | Warning | Suggestion | Message

  datatype Diagnostic = Diagnostic(category: Category, messageText: string)

  /**
   * What a directory holds, as far as the action looks: whether `tsconfig.json`
   * exists, and each lock file as `None` when absent, otherwise as what its
   * parser produced.
   */
  datatype Directory = Directory(
    hasConfig: bool,
    yarnLock: Option<Result<YarnLock, string>>,
    packageLock: Option<Result<Json, string>>)

  /** The end of a run: it passed, or `setFailed` was called with a message. */
  datatype Outcome = Passed | Failed(message: string)

  /** `currentDir` after lines 58-64: the input, or the process's directory when the input is empty. */
  function WorkingDirectory(input: string, cwd: string): (dir: string)
    ensures input == "" ==> dir == cwd
    ensures input != "" ==> dir == input
  {
    if input == "" then cwd else input
  }

  function ConfigNotFound(dir: string): string {
    "could not find tsconfig.json at: " + dir
  }

  /** `path.resolve(dir, 'tsconfig.json')`, without normalisation. */
  function ConfigPath(dir: string): string {
    dir + "/tsconfig.json"
  }

  /** `diagnostics.filter(d => d.category === DiagnosticCategory.Error)`. */
  function Errors(diagnostics: seq<Diagnostic>): (errors: seq<Diagnostic>)
    ensures |errors| <= |diagnostics|
    ensures forall d :: d in errors ==> d in diagnostics && d.category == Error
    ensures forall d :: d in diagnostics && d.category == Error ==> d in errors
    ensures forall d :: multiset(errors)[d] == if d.category == Error then multiset(diagnostics)[d] else 0
  {
    if diagnostics == [] then []
    else
      var first, rest := diagnostics[0], diagnostics[1..];
      var kept := if first.category == Error then [first] else [];
      assert diagnostics == [first] + rest;
      assert multiset(diagnostics) == multiset{first} + multiset(rest);
      assert multiset(kept + Errors(rest)) == multiset(kept) + multiset(Errors(rest));
      kept + Errors(rest)
  }

  /** Filtering keeps the engine's order: it distributes over concatenation. */
  lemma {:induction false} ErrorsOfConcat(a: seq<Diagnostic>, b: seq<Diagnostic>)
    ensures Errors(a + b) == Errors(a) + Errors(b)
  {
    if a == [] {
      assert a + b == b;
    } else {
      assert (a + b)[0] == a[0] && (a + b)[1..] == a[1..] + b;
      ErrorsOfConcat(a[1..], b);
    }
  }

  /** The error count is positive exactly when some diagnostic is an error. */
  lemma ErrorCountPositive(diagnostics: seq<Diagnostic>)
    ensures |Errors(diagnostics)| > 0 <==> exists i :: 0 <= i < |diagnostics| && diagnostics[i].category == Error
  {
  }

  function DigitString(n: nat): (s: string)
    ensures |s| >= 1
    ensures forall i :: 0 <= i < |s| ==> '0' <= s[i] <= '9'
    ensures s[0] == '0' ==> n == 0
  {
    var digit := ['0' + (n % 10) as char];
    if n < 10 then digit else DigitString(n / 10) + digit
  }

  /** The number a string of decimal digits denotes. */
  function DecimalValue(s: string): nat
    requires forall i :: 0 <= i < |s| ==> '0' <= s[i] <= '9'
  {
    if s == [] then 0 else 10 * DecimalValue(s[..|s| - 1]) + (s[|s| - 1] - '0') as nat
  }

  /** The count in the failure message reads back as the count: `${n}` for a natural number. */
  lemma {:induction false} DigitStringDenotes(n: nat)
    ensures DecimalValue(DigitString(n)) == n
  {
    var s := DigitString(n);
    if n >= 10 {
      DigitStringDenotes(n / 10);
      assert s[..|s| - 1] == DigitString(n / 10);
    }
  }

  /** `Found ${errors.length} errors!`: the count in plain decimal between fixed words. */
  function ErrorCountMessage(count: nat): (m: string)
    ensures |m| > 14 && m[..6] == "Found " && m[|m| - 8..] == " errors!"
    ensures var digits := m[6..|m| - 8];
      (forall i :: 0 <= i < |digits| ==> '0' <= digits[i] <= '9') &&
      DecimalValue(digits) == count && (digits[0] == '0' ==> count == 0)
  {
    DigitStringDenotes(count);
    var m := "Found " + DigitString(count) + " errors!";
    assert m[6..|m| - 8] == DigitString(count);
    m
  }

  /** One error gives the message `Found 1 errors!`. */
  lemma OneErrorMessage()
    ensures ErrorCountMessage(1) == "Found 1 errors!"
  {
  }

  /**
   * main (src/index.ts:55-88). `fs` says what each directory holds,
   * `loadTSModule` yields a compiler handle or the message it threw, and
   * `semanticDiagnostics` yields, for a handle and a config path, the
   * diagnostics, `null`, or the message the Doctor threw.
   */
  method Run<Engine>(workingDirectoryInput: string, cwd: string,
                     fs: string -> Directory,
                     loadTSModule: string -> Result<Engine, string>,
                     semanticDiagnostics: (Engine, string) -> Result<Option<seq<Diagnostic>>, string>)
    returns (outcome: Outcome)
    ensures var dir := WorkingDirectory(workingDirectoryInput, cwd);
      !fs(dir).hasConfig ==> outcome == Failed(ConfigNotFound(dir))
    ensures var dir := WorkingDirectory(workingDirectoryInput, cwd);
      var version := ParseTSVersion(fs(dir).yarnLock, fs(dir).packageLock);
      fs(dir).hasConfig && version.Err? ==> outcome == Failed(version.error)
    ensures var dir := WorkingDirectory(workingDirectoryInput, cwd);
      var version := ParseTSVersion(fs(dir).yarnLock, fs(dir).packageLock);
      fs(dir).hasConfig && version.Ok? && loadTSModule(version.value).Err? ==>
        outcome == Failed(loadTSModule(version.value).error)
    ensures var dir := WorkingDirectory(workingDirectoryInput, cwd);
      var version := ParseTSVersion(fs(dir).yarnLock, fs(dir).packageLock);
      fs(dir).hasConfig && version.Ok? && loadTSModule(version.value).Ok? ==>
        var diagnostics := semanticDiagnostics(loadTSModule(version.value).value, ConfigPath(dir));
        (diagnostics.Err? ==> outcome == Failed(diagnostics.error)) &&
        (diagnostics == Ok(None) ==> outcome == Passed) &&
        (diagnostics.Ok? && diagnostics.value.Some? ==>
          var count := |Errors(diagnostics.value.value)|;
          outcome == if count > 0 then Failed(ErrorCountMessage(count)) else Passed)
  {
    var currentDir := workingDirectoryInput;
    if currentDir == "" {
      currentDir := cwd;
    }
    var dir := fs(currentDir);
    if !dir.hasConfig {
      return Failed(ConfigNotFound(currentDir));
    }
    var tsVersion := ParseTSVersion(dir.yarnLock, dir.packageLock);
    if tsVersion.Err? {
      return Failed(tsVersion.error);
    }
    var remoteTS := loadTSModule(tsVersion.value);
    if remoteTS.Err? {
      return Failed(remoteTS.error);
    }
    var diagnostics := semanticDiagnostics(remoteTS.value, ConfigPath(currentDir));
    if diagnostics.Err? {
      return Failed(diagnostics.error);
    }
    outcome := Passed;
    if diagnostics.value.Some? {
      var errors := Errors(diagnostics.value.value);
      if |errors| > 0 {
        outcome := Failed(ErrorCountMessage(|errors|));
      }
    }
  }
}
