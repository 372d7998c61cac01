# tsc-reporter: TypeScript version resolution and run outcome

tsc-reporter is a GitHub Action. It works out which TypeScript version a project pins in its lock file. It loads that compiler, reports the compiler's semantic diagnostics, and fails the step when any diagnostic is an error. This Dafny project models the decision logic of `src/index.ts`:

- `VersionResolver` (`version_resolver.dfy`) models `parseTSVersion` and its two helpers. `yarn.lock` takes precedence over `package-lock.json`. The yarn branch uses the first key starting with `typescript@`. The npm branch reads `dependencies.typescript.version`. Every exact error message of the source is kept. The source writes `par` and names `yarn.lock` in the npm branch's message, and the model keeps that text.
- `JsValues` (`js_values.dfy`) models the JSON value the parsers return. It gives JavaScript falsiness and property reads.
- `Action` (`action.dfy`) models `main` as the method `Run`. Run first takes the working directory, or the process's directory when the input is empty. It then checks `tsconfig.json` before anything else. Next it resolves the version, loads the compiler and collects its diagnostics. It ends with `Failed("Found N errors!")` exactly when diagnostics were produced and N of them are errors. A thrown error ends the run as `Failed(<its message>)`.

Inputs that the source gets from I/O are parameters:
- `fs` gives, for each directory path, whether `tsconfig.json` exists. It also gives what each lock file parsed to: `None` when the file is absent, otherwise the parser's value, or `Err` with the message that reading the file or the parser threw.
- `cwd` stands for `process.cwd()`.
- `loadTSModule` gives a compiler handle or the message it threw.
- `semanticDiagnostics` stands for the Doctor. It gives a diagnostic list, `null` (`None`), or the message it threw.

Yarn entries are listed in `Object.keys` order. JavaScript puts integer-like keys first. No such key starts with `typescript@`, so the first matching key is also the first in insertion order. The record used is the found entry's own, which is `object[key]` because object keys are unique.

## Model

| member | source | states |
|---|---|---|
| `VersionResolver.ParseTSVersion` | src/index.ts:9-21 | with neither lock file the result is the error `no lock file found.` |
| `VersionResolver.YarnLockTakesPrecedence` | src/index.ts:12-14 | when `yarn.lock` exists its result is the result, whatever `package-lock.json` holds |
| `VersionResolver.PackageLockIsTheFallback` | src/index.ts:15-17 | without `yarn.lock`, the result is that of `package-lock.json` |
| `VersionResolver.IsTypescriptKey` | src/index.ts:29 | a key matches exactly when its first 11 characters are `typescript@`, with case preserved |
| `VersionResolver.KeyMatchIsAnchoredAndCaseSensitive` | src/index.ts:29 | `typescript@^5.0.0` matches; `TypeScript@5.0.0` (other case) and `@types/typescript@1` (match not at the start) do not |
| `VersionResolver.FindTypescriptEntry` | src/index.ts:28-29 | the index found is the first key starting with `typescript@`; none is found exactly when no key starts so |
| `VersionResolver.VersionOf` | src/index.ts:34-38 | succeeds exactly when the value is a string, and then returns it unchanged; otherwise the error `could not par typescript version from yarn.lock` |
| `VersionResolver.YarnVersionField` | src/index.ts:34 | for an object record the version is its `version` property; a record that is the empty string is itself the version `""`; a string version comes only from one of these two |
| `VersionResolver.FromYarnLock` | src/index.ts:23-39 | a parser exception propagates; a status other than success gives `failed to parse yarn.lock`; `could not find typescript in yarn.lock` exactly when no key matches; otherwise the first matching record's `info && info.version` decides; success only from that record's string version |
| `VersionResolver.YarnSkipsUnrelatedEntries` | src/index.ts:28-29 | prepending entries whose keys do not start with `typescript@` changes nothing |
| `VersionResolver.YarnFirstEntryWins` | src/index.ts:29-38 | with a matching first key, the entries after it have no effect |
| `VersionResolver.YarnAcceptsEmptyVersions` | src/index.ts:34-38 | an empty version string is accepted, and so is a record that is the empty string itself |
| `VersionResolver.YarnExample` | src/index.ts:9-39 | a `yarn.lock` pinning typescript 4.9.5 after another package gives exactly `4.9.5`, even when `package-lock.json` says otherwise |
| `VersionResolver.FromPackageLock` | src/index.ts:41-53 | a JSON syntax error propagates; a `null` document throws the TypeError for reading `dependencies`; missing or falsy `dependencies` acts as `{}`; `could not find typescript in package-lock.json` exactly when `dependencies.typescript` is falsy; when `dependencies.typescript` is truthy but its `version` is not a string, the error `could not par typescript version from yarn.lock`; success exactly when `dependencies.typescript.version` is a string, which is returned unchanged |
| `VersionResolver.PackageLockExample` | src/index.ts:41-53 | `{"dependencies":{"typescript":{"version":"5.1.0"}}}` gives `5.1.0` |
| `JsValues.Member` | src/index.ts:43-48 | a property read finds a value exactly when the value is an object with that own field, and then yields that field |
| `Action.WorkingDirectory` | src/index.ts:58-64 | the directory is the input, or the current directory when the input is empty |
| `Action.Errors` | src/index.ts:79 | each error-category diagnostic is kept as many times as it occurs in the input, and no other diagnostic is kept, so the length is the number of errors |
| `Action.ErrorsOfConcat` | src/index.ts:79 | the filter keeps the engine's order: it distributes over concatenation |
| `Action.ErrorCountPositive` | src/index.ts:79-80 | the error count is positive exactly when some diagnostic has category Error |
| `Action.DigitString` | src/index.ts:81 | the count is written as a non-empty string of decimal digits, with no leading zero unless the count is 0 |
| `Action.DigitStringDenotes` | src/index.ts:81 | the digits written denote the count itself |
| `Action.ErrorCountMessage` | src/index.ts:81 | the message is `Found `, then the decimal count with no leading zero, then ` errors!` |
| `Action.OneErrorMessage` | src/index.ts:81 | a single error gives exactly `Found 1 errors!` |
| `Action.Run` | src/index.ts:55-88 | an empty working-directory input falls back to the current directory; a missing `tsconfig.json` fails with `could not find tsconfig.json at: <dir>` whatever the lock files, loader and engine do; otherwise each thrown error (version resolution, loading, the Doctor) fails the run with its message; a `null` result passes; a diagnostic list fails with `Found N errors!` exactly when N, its number of errors, is positive, and passes otherwise |

## Left out

- Reading files and resolving paths (`fs.existsSync`, `fs.readFileSync`, `path.resolve`): a directory's contents are the parameter `fs`. The config path is the directory joined with `/tsconfig.json`, without normalisation.
- `YarnLockFile.parse` and `JSON.parse`: their results, or the messages they throw, are inputs. JSON numbers are integers in the model. Only whether a number is zero matters here.
- `loadTSModule`, `Doctor.fromConfigFile` and `getSemanticDiagnostics`: these install and run the TypeScript compiler, so they are opaque parameters. `reporter.reportDiagnostics` only writes to the log and is not modelled. An exception it throws is not modelled either.
- `getInput` and `setFailed` from `@actions/core`: the input is a parameter and the failure is the returned `Outcome`. `workingDirectoryInput` is the value `getInput` returns, which it has already trimmed, so a whitespace-only input reaches the model as `""`. How `setFailed` renders an `Error` object in the log is not modelled. The model keeps the error's message.
- The `async`/`await` sequencing of `main`: the steps run in order, and nothing else happens concurrently.
- The TypeError for `null['dependencies']`: its text is the message of recent V8 (Node 16.9 and later). Older V8 says "Cannot read property 'dependencies' of null", and other engines word it differently.
