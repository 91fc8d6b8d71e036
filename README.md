# pyla, modelled in Dafny

pyla runs a Python script in the browser on top of the Pyodide runtime.
The user types the script, plus an optional list of requirements, one per
line. On "run" the page does the following:

1. If there are requirements, it loads and imports micropip and installs
   each requirement in turn.
2. It asks the user for a directory and obtains read-write permission on it.
3. It mounts that directory at `/home/pyodide/pyla` inside the runtime.
4. It executes the script. What the script prints is appended to an output
   log.

A small Go server proxies inference requests to a model service. It reads
its configuration from the environment. When a request authorizes itself
with the public fair-use token, the server puts the private access token in
its place.

The model has five modules:

- `JsText` (`text.dfy`) models the JavaScript string built-ins the page
  relies on:
  - `trim`, with the exact ECMAScript whitespace and line-terminator set;
  - `split('\n')`;
  - `join('\n')`, as the inverse of the split.
- `App` (`app.dfy`) models the component of `src/main.js`.
  - The data fields are a `Session` class.
  - `mounted`, the stdout callback and `run` are its methods.
  - `run` is proved against a function `RunTrace`. That function returns
    the run's collaborator calls in order (each with how it settled), how
    the run settled, and what the script printed.
  - The collaborators are Pyodide, micropip, the directory picker, the
    permission prompt, the mount and `runPython`. Their answers are a
    `Platform` value.
- `RunProperties` (`run_properties.dfy`) proves what every run does:
  - its calls follow one fixed plan;
  - each call settles as the collaborator answered;
  - a rejected answer stops the run, which rejects with that answer's error;
  - a failed run either ended that way, or threw one of its own errors
    (a missing runtime, a refused permission);
  - the installs are exactly the requirement lines, in order;
  - the mount and the script are gated by the permission and by a loaded
    runtime;
  - output only comes from the script, the one collaborator assumed to
    print.
- `GoStrconv` (`strconv.dfy`) models Go's `strconv.Atoi` for the port. It
  follows the library's own scan, including the case where a range error is
  reported before a later syntax error. It also defines `Itoa` as the
  inverse of `Atoi`.
- `Server` (`server.dfy`) models `newCfg` as an ordered validation of an
  environment map. It also models the director's header rewrite, as a
  method on a `Request` object.

Three details of `src/main.js` shape the model:

- Only the whole requirements text is trimmed (lines 35-36). Blank lines
  and comment lines between requirements are passed to `micropip.install`
  as they are (`InnerBlankLineKept`).
- Nothing follows the script: `run` ends with `runPython` (line 54).
- A refused permission throws `new Error('read access to directory not
  granted')` (line 51).

## Model

| member | source | states |
|---|---|---|
| JsText.TrimStart | src/main.js:35 | the part dropped from the front is all whitespace, and what is left is a suffix that does not start with whitespace |
| JsText.TrimEnd | src/main.js:35 | the part dropped from the back is all whitespace, and what is left is a prefix that does not end with whitespace |
| JsText.Trim | src/main.js:35 | the result neither starts nor ends with whitespace; it is empty exactly when the text is all whitespace, which is when the `if` on line 35 skips micropip |
| JsText.TrimIsInfix | src/main.js:35 | the trimmed text is a contiguous piece of the input with only whitespace on either side |
| JsText.TrimKeepsSolidEnds | src/main.js:35 | text without whitespace at either end is left unchanged |
| JsText.Split | src/main.js:36 | `split('\n')` always yields at least one piece, and no piece contains a line feed |
| JsText.JoinSplit | src/main.js:36 | re-joining the pieces with line feeds gives back the text, so nothing is dropped or reordered |
| JsText.SplitJoin | src/main.js:36 | splitting the join of line-feed-free pieces gives back the pieces |
| JsText.SplitLine | src/main.js:36 | a line with no line feed is a single piece |
| JsText.SplitPrefix | src/main.js:36 | a line-feed-free head followed by a line feed becomes the first piece |
| App.Requirements | src/main.js:35-36 | there are no requirements exactly when the text is all whitespace; otherwise the requirements, joined by line feeds, are the trimmed text; no requirement contains a line feed |
| App.InitSlot | src/main.js:20-31 | the slot holds the runtime exactly when both loading and the stdout hook succeed; otherwise it holds whatever was thrown, by `loadPyodide` first and by `setStdout` second |
| App.GlobalError | src/main.js:13-18 | the global error is present exactly when the slot holds an `Error` instance, and it is that value |
| App.Session.constructor | src/main.js:4-11 | the initial data: no runtime, empty script and requirements, the placeholder output line |
| App.Session.Mounted | src/main.js:20-31 | the slot becomes the initialisation result; an `Error` thrown by `loadPyodide` becomes the global error, and a successful start leaves no global error |
| App.Session.OnStdout | src/main.js:28 | each stdout batch is appended to the output log, and nothing else changes |
| App.InstallAll | src/main.js:40-42 | the sequential loop makes exactly the calls and the outcome of the install trace: one install per requirement, stopping at the first rejection |
| App.Session.LoadAndInstall | src/main.js:35-44 | loading micropip, importing it and the installs give the package part of the trace; nothing happens without requirements; a missing runtime fails at `loadPackage` |
| App.Session.PickMountAndExecute | src/main.js:45-54 | the picker, permission, mount and script calls, the outcome and the appended output equal the directory part of the trace |
| App.Session.Run | src/main.js:34-55 | the returned calls and outcome are those of `RunTrace`, and the log grows by exactly the trace's stdout |
| RunProperties.InstallFromShape | src/main.js:40-42 | the install loop calls `install` on the requirements in order, each call settles as its answer says, the loop stops at the first rejection, it fails only by a rejected install, which is its last call, and it succeeds exactly when every install does |
| RunProperties.ShapedFirstRejection | src/main.js:40-42 | a loop shaped like that reaches the first rejected install, makes no call after it and settles with its rejection |
| RunProperties.PackagesShape | src/main.js:35-44 | the package part follows its plan and stops at the first rejection; it succeeds exactly when there are no requirements, or when micropip loads, imports and installs everything; it fails either by a rejected call, which is its last and settles it, or by the TypeError at `loadPackage` without a runtime, before any call |
| RunProperties.DirectoryShape | src/main.js:45-54 | the directory part follows its plan and stops at the first rejection; the mount is reached exactly when the picked directory was granted and a runtime is loaded, and the script exactly when the mount then succeeds; a status other than "granted" fails with the permission error; it fails either by a rejected call, which is its last and settles it, or right after the permission request with the permission error or the TypeError at `mountNativeFS`; output appears only once the script runs |
| RunProperties.ThenShape | src/main.js:37-39 | chaining two awaited parts keeps both "follows the plan" and "stops at the first rejection" |
| RunProperties.RunFollowsPlan | src/main.js:34-55 | the run's calls are a prefix of the plan: micropip load, import, one install per line, picker, permission, mount, script; a successful run made every call, each successfully, and printed the script's output |
| RunProperties.NothingRunsAfterFailure | src/main.js:34-55 | only the last call can have failed, and if it did the run settles with that same rejection |
| RunProperties.BlankRequirementsSkipMicropip | src/main.js:35 | with whitespace-only requirements, the first call is the directory picker and micropip is never touched |
| RunProperties.MicropipBeforeInstalls | src/main.js:37-41 | every install comes after micropip was loaded and imported successfully |
| RunProperties.PromptReachedExactly | src/main.js:35-45 | the directory picker is reached exactly when there are no requirements, or when micropip and every install succeeded |
| RunProperties.InstallsAreTheLines | src/main.js:36-42 | once the picker is reached, it is the call right after the installs, and the installs were exactly the requirement lines, in order, each successful |
| RunProperties.PermissionGatesMount | src/main.js:46-53 | mounting and running happen only after a granted read-write permission on a picked directory, with a loaded runtime; any other status ends the run right there with the permission error |
| RunProperties.ScriptRunsOnceAfterMount | src/main.js:53-54 | the script runs at most once, as the last call, right after the picked directory was mounted at `/home/pyodide/pyla` |
| RunProperties.OutputOnlyFromScript | src/main.js:54 | a run adds something to the log only if its last call ran the script, and then what it adds is the script's output; only `runPython` is assumed to print (see "Left out") |
| RunProperties.PackageAnswers | src/main.js:37-42 | the `k`-th call of the package part settles as its answer: `loadPackage`, then `pyimport`, then the `(k-2)`-th install |
| RunProperties.DirectoryAnswers | src/main.js:45-54 | each directory call settles as its answer (picker, permission, mount, `runPython`); once the script ran it settles the part; the part succeeds exactly when the picker succeeds, the status is "granted", the runtime is loaded and the mount and the script succeed |
| RunProperties.RunAnswers | src/main.js:34-55 | the `i`-th call of a run settles as the answer to the `i`-th planned call |
| RunProperties.CallAnswers | src/main.js:37-54 | every recorded result is the called collaborator's answer: `loadPackage`, `pyimport`, the `k`-th `install` (at position `k + 2`), the picker, the permission request, the mount and `runPython` |
| RunProperties.RejectedAnswerEndsRun | src/main.js:34-55 | a call that gets a rejected answer is the last call of the run, and the run settles with that rejection |
| RunProperties.RejectedInstallEndsRun | src/main.js:40-42 | a rejected `k`-th `micropip.install` is the last call: no later install and no directory prompt, and the run settles with that rejection |
| RunProperties.RejectedMountNoScript | src/main.js:53-54 | when `mountNativeFS` rejects, `runPython` is never called |
| RunProperties.RunSucceedsExactly | src/main.js:34-55 | a run succeeds exactly when micropip and every install succeed (if there are requirements), the picker succeeds, the status is "granted", the runtime is loaded and the mount and the script succeed |
| RunProperties.RunFailureOrigin | src/main.js:34-55 | a failed run either settled with the rejected answer of its last call, or threw by itself without a further call: the TypeError at `loadPackage` without a runtime, the permission error on a status other than "granted", or the TypeError at `mountNativeFS` without a runtime |
| RunProperties.MicropipRejectionSettlesRun | src/main.js:37-38 | with requirements and a runtime, a rejected `loadPackage` is the only call and the run rejects with its error; a rejected `pyimport` after it is the second and last call, and the run rejects with its error |
| RunProperties.FirstRejectedInstallSettlesRun | src/main.js:40-42 | once micropip is ready, the run installs the lines `0..k` in order, where `k` is the first rejected install, calls nothing after it and rejects with its error |
| RunProperties.DirectoryPartSettlesRun | src/main.js:45-54 | once the package part succeeded, the picker, the permission request, the mount and `runPython` are called in order, each settling as its answer says, up to the first rejected one, whose error the run rejects with, or up to the permission error or the TypeError at `mountNativeFS`; a run that ran the script settles as the script did and shows its output |
| RunProperties.NoRuntimeNoRuntimeCalls | src/main.js:37-53 | without a loaded runtime the run fails and makes no call through the runtime; at most the picker and the permission prompt happen |
| RunProperties.InnerBlankLineKept | src/main.js:35-36 | a blank line between two requirements becomes an empty requirement, which is installed |
| GoStrconv.ScanMeaning | server/cmd/server/main.go:102 | the digit scan succeeds exactly on digit strings whose value fits in 64 bits, and then returns that value |
| GoStrconv.RangeBeforeSyntax | server/cmd/server/main.go:102 | once the digits read so far exceed 64 bits, the result is a range error, whatever follows |
| GoStrconv.AtoiMeaning | server/cmd/server/main.go:102-105 | `Atoi` succeeds exactly on an optional sign followed by digits whose value is in `int64` range (Go's `int` taken as 64 bits), and then returns that value; an out-of-range number is a range error; every error names `Atoi` and carries the whole input |
| GoStrconv.AtoiItoa | server/cmd/server/main.go:102 | `Atoi` reads back the decimal text of every `int64` |
| GoStrconv.AtoiErrorKind | server/cmd/server/main.go:102 | a rejected well-formed input is a range error; an input with no digit right after its optional sign is a syntax error |
| Server.NewCfg | server/cmd/server/main.go:78-113 | a configuration carries the variables' own values: the URL as parsed, the port as `Atoi` reads it, and two non-empty tokens |
| Server.ValidationOrder | server/cmd/server/main.go:79-105 | each error is returned exactly when every earlier check passed and its own check failed, in the order token, URL, URL parse, fair-use token, port, port parse; a configuration is returned exactly when every check passed |
| Server.EmptySameAsUnset | server/cmd/server/main.go:79-101 | a variable set to the empty string gives the same result as an unset one |
| Server.PortIsParsed | server/cmd/server/main.go:102-111 | the configured port is the in-range number the PORT text spells; a port error is `Atoi`'s error on the PORT text, raised because the text is malformed or out of range |
| Server.PortRoundTrip | server/cmd/server/main.go:98-111 | when the other variables are valid, every `int64` written in decimal becomes the configured port |
| Server.UnsetMessage | server/cmd/server/main.go:79-101 | an "environment variable not set" error names one of the four variables `newCfg` reads, and that variable is unset or empty; its text is the name followed by " environment variable not set" |
| Server.PortErrorMessage | server/cmd/server/main.go:102-105 | a port error's text is "Failed to parse given port value to int: " followed by the message of `Atoi`'s own error, which names `Atoi` and carries the PORT text; a well-formed PORT can only be out of range, and a PORT that does not start with a digit after its optional sign is invalid syntax |
| Server.HasSuffixMeans | server/cmd/server/main.go:61 | `HasSuffix(s, t)` holds exactly when `s` is some text followed by `t` |
| Server.Rewrite | server/cmd/server/main.go:61-63 | a request whose Authorization value ends with the fair-use token gets exactly "Bearer " plus the access token; other headers, and all other requests, are unchanged |
| Server.FairUseTokenIsExchanged | server/cmd/server/main.go:61-63 | any Authorization value of the form text plus fair-use token is exchanged for the access token |
| Server.NoAuthorizationNoExchange | server/cmd/server/main.go:94-96 | with a configuration from `newCfg`, a request without an Authorization value is left unchanged, because the fair-use token is never empty |
| Server.Director | server/cmd/server/main.go:59-66 | the request's headers become the rewrite of the old headers, and its host is always the inference URL's host |

## Left out

- The Vue framework: rendering, the template, data binding and `mount('#app')`. The component's data and methods are modelled directly.
- Pyodide, micropip, `showDirectoryPicker`, `requestPermission`, `mountNativeFS` and `runPython` are collaborators. Their answers are given as a `Platform` value, and their behaviour is not modelled.
- The install answers are given per call, as the `k`-th answer, rather than as a function of the requirement. The `k`-th call always follows the same earlier installs, so order-dependent failures can still be expressed.
- A running `run` reads `this.script` and `this.pyodide` after several `await`s. The model reads the session state once, at the start of the run. It does not model edits in the page, or a still-pending `mounted`, interleaving with a run.
- App.MissingRuntime: the browser's TypeError message is not modelled; only the member that was looked up is recorded.
- The value `mountNativeFS` resolves to is unused by the source and is not modelled.
- A `\r` from Windows line endings stays at the end of a requirement, as in the source. No lemma is stated about it.
- `src/remote-model.js` and `vite.config.js` are not part of this model.
- `main()` of the server is not modelled: logging, the HTTP mux, the file server, the listener, signal handling and shutdown. These are I/O.
- The reverse proxy's own default director, which runs before the rewrite, is not modelled: URL scheme, host and path joining, query merging and the default User-Agent. The same goes for its transport. `Server.Director` starts from the request the default director leaves.
- `url.Parse` is a parameter of `NewCfg`; its parsing rules are not modelled. `Url` keeps only scheme, host and path.
- Header names are assumed to be in canonical form already. The canonicalisation that `Header.Get`/`Header.Set` apply to the key is not modelled.
- GoStrconv.Quote: `strconv.Quote` is modelled only for inputs without characters that need escaping.
- The port is not range-checked for TCP, just as in the source: any `int64` is accepted.
- The "Proxying inference request using fair use token" log line is not modelled.
- RunProperties.OutputOnlyFromScript: only `runPython` is assumed to print. The stdout hook of line 28 belongs to the whole runtime, so Python output produced while `pyimport('micropip')` or `micropip.install` is awaited, or by tasks an earlier script left running, would also land in the log. `App.Session.Run`'s statement that the log grows by exactly the script's output rests on the same assumption.
- Overlapping runs are not modelled. `src/main.js` does not stop a second `run` from starting while one is pending, and then the two runs' installs, prompts and stdout batches would interleave. `App.Session.Run` is atomic.
- GoStrconv.Atoi: Go's `int` is taken to be 64 bits, so the accepted range is that of `int64`. On a 32-bit target `Atoi`'s range is that of `int32`.
- Strings are sequences of Unicode scalar values. Go strings are bytes and `strings.HasSuffix` compares bytes; JavaScript strings are UTF-16 code units. Lone surrogates and header bytes that are not UTF-8 cannot occur in the model.
- The `env: {FILES_PATH: '/home/pyodide/pyla'}` option passed to `loadPyodide` (`src/main.js:22-26`) is not modelled. Only the mount point of line 53 is.
