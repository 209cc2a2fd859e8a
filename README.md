# react-pyodide output demultiplexer, in Dafny

react-pyodide lets React components run Python in the browser through
Pyodide. One provider component loads the runtime once for the page. Any
number of `usePyodide` hooks share it. The runtime has a single stdout and a
single stderr channel, so the provider splits them by runner:

- it keeps two stores, stdout and stderr, each mapping a runner id to the
  lines written while that runner was active;
- it keeps one "active runner" slot;
- its two sink callbacks append each incoming line to the active runner's
  entry, and wipe the whole store when no runner is active;
- `run(runnerId, code)` empties the runner's two entries, makes it the
  active runner, and only then checks that the runtime is loaded.

Each hook holds a runner id, an `isRunning` flag and a package list. It
forwards runs under its id and shows its stdout and stderr entries as text
joined with `"\n"`.

The model has four modules:

- `Demux` (demux.dfy) gives the stores as values. `Deliver` is one sink
  updater, `Emit`/`EmitAll` are runtime output events and `RunEffect` is a
  whole run. The lemmas cover order, other keys, the two channels staying
  apart, reset-before-run, serialized runs and the clear-all.
- `Text` (text.dfy) is `Array.prototype.join("\n")` as `Join`. `Split` is its
  inverse, with both round trips proved.
- `PyodideProvider` (provider.dfy) has class `Provider`. Its fields are the
  provider's state and ref, and its methods are the sinks, `run` and the load
  effect. The sinks and `Run` are proved against the `Demux` functions.
- `UsePyodide` (hook.dfy) has the `View` projection and class `Hook`:
  `runPython`, `newRunnerId`, the setters and the package loop.

The runtime is not modelled. What `runPythonAsync(code)` does is a parameter:
an `Execution`, which is the sink calls the runtime makes, in order, and
whether it returns a value or throws. React state updaters are applied one
after another in program order. A fresh UUID is a token passed in that has
no entry in either store yet.

Edge cases of the code that the model keeps:

- Package installs have no `try`/`catch` in the hook
  (src/hooks/usePyodide.ts:41-54). So the first failed `micropip.install`
  rejects the effect's promise, and later packages are never attempted. A
  failed install is not just logged and skipped.
- The sinks test `!activeRunner.current`, which is JavaScript truthiness. So
  a runner id of `""` counts as "no active runner". A run under the empty id
  wipes a channel's whole store as soon as the runtime writes to it
  (`Demux.EmptyIdLosesAllOutput`).
- When loading ends without a runtime (the load failed), `runPython` passes
  its guard. `run` then resets the buffers and sets the active runner before
  it throws, and the hook resolves to `null`. When the package list is
  non-empty, the package loop reaches `micropip.install` on an undefined
  `micropip` and throws before installing anything. With an empty list it
  makes no call and does not throw.

## Model

| member | source | states |
|---|---|---|
| `Demux.HasActiveRunner` | src/providers/PyodideProvider.tsx:197-213 | The sinks' `!activeRunner.current` test: a runner is active exactly when the slot is neither null nor the empty id, the two falsy values. |
| `Demux.Entry` | src/providers/PyodideProvider.tsx:203-219 | `prev[runnerId] \|\| []`: an existing entry is read as it is, and the result is empty exactly when there is no entry or the entry is empty. |
| `Demux.Deliver` | src/providers/PyodideProvider.tsx:195-226 | With an active runner, that runner's entry becomes its previous lines (none if it had no entry) plus `msg` at the end, and it is `[msg]` when there was no entry; the key set grows by that id only and every other key keeps its value. With no active runner (null or empty id), the result is the empty map. |
| `Demux.Reset` | src/providers/PyodideProvider.tsx:263-274 | The run's reset updater makes the runner's entry empty and leaves every other key as it was. |
| `Demux.Emit` | src/providers/PyodideProvider.tsx:195-226 | An output event updates only its own channel's store, as `Deliver`; the other channel's store is untouched (stdout never touches stderr and vice versa). |
| `Demux.ResetBoth` | src/providers/PyodideProvider.tsx:263-274 | `run` resets the runner's entry in both stores. |
| `Demux.RunEffect` | src/providers/PyodideProvider.tsx:261-283 | A whole run as one value. For a non-empty id, each store ends as it was except that the runner's entry is exactly the lines this run wrote to that channel. |
| `Demux.EmitAllActive` | src/providers/PyodideProvider.tsx:202-209 | With an active runner, a sequence of events appends exactly that channel's messages, in order, to the runner's entry; no other key of either store appears, disappears or changes. |
| `Demux.EmitAllIdle` | src/providers/PyodideProvider.tsx:197-200 | With no active runner, a channel's store is wiped as soon as one event arrives on that channel and is unchanged otherwise. |
| `Demux.EmitAllConcat` | src/providers/PyodideProvider.tsx:276-283 | The slot is never cleared, so output arriving after a run finishes continues that run: delivering `first` then `later` equals delivering `first + later`. |
| `Demux.RunReportsOnlyThisRun` | src/providers/PyodideProvider.tsx:261-283 | After a run of a non-empty id, each store is the old store with that id's entry set to exactly this run's lines on that channel. |
| `Demux.SerializedRunsDoNotLeak` | src/providers/PyodideProvider.tsx:261-283 | Runner `a` runs, then runner `b`: each entry holds exactly its own run's lines, on both channels. |
| `Demux.EmptyIdLosesAllOutput` | src/providers/PyodideProvider.tsx:197-200 | A run under the empty id that writes to a channel leaves that channel's store empty, every runner's history included. |
| `Text.Join` | src/hooks/usePyodide.ts:97-98 | `join("\n")`: no lines join to `""`; otherwise the text starts with the first line, and with two or more lines a line break follows it. |
| `Text.JoinAppend` | src/hooks/usePyodide.ts:97-98 | `join("\n")` of the lines plus one more is the old text, a line break and the new line, or just the new line when there were none. |
| `Text.SplitJoin` | src/hooks/usePyodide.ts:97-98 | For a non-empty list of lines without line breaks, splitting the joined text gives the list back. |
| `Text.JoinSplit` | src/hooks/usePyodide.ts:97-98 | Joining the pieces of any text gives the text back. |
| `PyodideProvider.Provider.constructor` | src/providers/PyodideProvider.tsx:153-166 | A new provider has no script, is loading, has no runtime, has no active runner and has empty stores. |
| `PyodideProvider.Provider.ScriptAvailable` | src/providers/PyodideProvider.tsx:168-181 | Once the bootstrap script is present, `hasScript` holds. |
| `PyodideProvider.Provider.InitRuntime` | src/providers/PyodideProvider.tsx:183-239 | With the script present and no runtime, the load effect ends with loading off and the runtime loaded exactly when `loadPyodide` succeeded. After a failed load, `isLoading` (line 289) is false although there is no runtime. Otherwise nothing changes. |
| `PyodideProvider.Provider.IsLoading` | src/providers/PyodideProvider.tsx:289 | `!hasScript \|\| isLoading`: loading while the script is absent, and never once the runtime is ready. |
| `PyodideProvider.Provider.StdoutSink` | src/providers/PyodideProvider.tsx:195-210 | The stdout store becomes `Deliver` of the old store under the current slot, and nothing else changes. |
| `PyodideProvider.Provider.StderrSink` | src/providers/PyodideProvider.tsx:211-226 | The stderr store becomes `Deliver` of the old store under the current slot, and nothing else changes. |
| `PyodideProvider.Provider.Run` | src/providers/PyodideProvider.tsx:261-284 | The active runner is `id` afterwards in every case. Without a runtime it rejects with NotLoaded, after both entries have been reset. With a runtime the stores are `RunEffect` of the old stores, and the call resolves with the runtime's value or rejects with its error. |
| `UsePyodide.View` | src/hooks/usePyodide.ts:97-98 | `store[id]?.join("\n") \|\| ""`: `""` when the id has no entry or an empty one; otherwise, when the lines hold no line breaks, the text splits back into exactly those lines. |
| `UsePyodide.Hook.Stdout` | src/hooks/usePyodide.ts:97 | The hook's `stdout`: `""` while its token has no stdout entry; otherwise, for break-free lines, it splits back into the token's stdout entry. |
| `UsePyodide.Hook.Stderr` | src/hooks/usePyodide.ts:98 | The hook's `stderr`: `""` while its token has no stderr entry; otherwise, for break-free lines, it splits back into the token's stderr entry. |
| `UsePyodide.ViewAfterDeliver` | src/hooks/usePyodide.ts:97-98 | A sink call for the active runner extends that runner's text by one line: after a line break, or as the whole text when it had no lines. |
| `UsePyodide.ViewAfterRun` | src/hooks/usePyodide.ts:97-98 | After a run of a non-empty id, the runner's text on each channel is exactly that run's lines joined. |
| `UsePyodide.ViewUntouchedByOtherRun` | src/hooks/usePyodide.ts:97-98 | A run of another non-empty id does not change this runner's text. |
| `UsePyodide.ViewRecoversLines` | src/hooks/usePyodide.ts:97-98 | When the lines hold no line breaks, the text gives them back. |
| `UsePyodide.InstallPlan` | src/hooks/usePyodide.ts:45-49 | The install calls of the loop: never more than the packages; the first package is always attempted; when it fails, it is the only call. |
| `UsePyodide.InstallPlanInOrder` | src/hooks/usePyodide.ts:45-49 | The install calls are a prefix of the package list. Every package before the last one called installed, and the loop stops early only at a failed install. |
| `UsePyodide.InstallPlanAfter` | src/hooks/usePyodide.ts:45-49 | Packages that installed do not change the rest of the plan: the plan is those packages followed by the plan for the rest of the list. |
| `UsePyodide.Hook.constructor` | src/hooks/usePyodide.ts:33-36 | A new hook has a fresh token, is not running, and both its texts are empty. |
| `UsePyodide.Hook.RunPython` | src/hooks/usePyodide.ts:56-76 | While loading: resolves to `undefined`, does not call `run` (stores and slot unchanged) and leaves `isRunning` alone. Otherwise: the ghost field `runningDuringRun` records `isRunning` at the moment `run` is called, which is true, and `isRunning` is false after the call; a rejection becomes `null`; the provider's state is as `Run` promises. With a non-empty id, the texts are exactly this run's lines, or empty when there is no runtime. |
| `UsePyodide.Hook.NewRunnerId` | src/hooks/usePyodide.ts:78-80 | The hook takes the fresh token, both texts read `""`, and the provider's stores (the old token's lines among them) are unchanged. |
| `UsePyodide.Hook.SetRunnerId` | src/hooks/usePyodide.ts:34 | The hook now runs and reads under the given id, and the stores are unchanged. |
| `UsePyodide.Hook.SetPackages` | src/hooks/usePyodide.ts:36 | The hook's package list is replaced. |
| `UsePyodide.Hook.LoadPackages` | src/hooks/usePyodide.ts:41-54 | While loading: installs nothing. After a failed load: installs nothing, and rejects when the list is non-empty. With the runtime: the install calls are exactly `InstallPlan`, and the effect rejects exactly when some package fails to install. |
| `UsePyodide.SerializedHooks` | src/hooks/usePyodide.ts:64-67 | Two hooks on one loaded provider with distinct non-empty ids, run one after the other: each shows exactly its own run's stdout and stderr. |

## Left out

- Script tag injection and the `window.loadPyodide` check (src/providers/PyodideProvider.tsx:168-181) are DOM I/O. Only their effect, `hasScript` becoming true, is modelled.
- `loadPyodide`, `runPythonAsync`, `pyimport("micropip")` and `micropip.install` call into the WASM runtime. They are parameters: a success flag for loading, an `Execution` for a run, and a function saying which installs succeed. A missing `micropip` module in a loaded runtime is not modelled.
- Logging (`console.error`, `console.info`, `console.log`) is not modelled.
- React scheduling is not modelled: re-renders, effect dependency arrays and when an effect re-runs. Updaters apply immediately, in program order. So React's strict-mode double call of an updater, which with the in-place `push` appends a line twice, is not modelled. Nor is aliasing between the old and new store arrays.
- Two hooks' runs interleaving at the `await` (src/providers/PyodideProvider.tsx:282) is concurrency. Only serialized runs are modelled.
- UUID generation (src/hooks/usePyodide.ts:34,79) becomes a token the caller passes in, required to have no entry in either store.
- JavaScript objects as dictionaries: runner ids that name inherited properties of `Object.prototype` (such as `"constructor"`) are plain keys in the model.
- An `undefined` package list passed to the hook (the example component passes an optional one) is not modelled. The list is always a sequence.
- The version-log effect (src/providers/PyodideProvider.tsx:254-259) logs the version and calls `setIsLoading(false)` once `pyodide` is set. That call repeats the load effect's `finally` (line 234). The model covers it through `InitRuntime`, which ends with loading off, and the invariant `runtimeLoaded ==> !loading` in `Provider.Valid()`. Only the log is left out.
- The unused `pyodide-http` effect (src/providers/PyodideProvider.tsx:241-252), `globals`, `sendInput` and `prompt` carry no logic.
- website/src/components/ImageExample.tsx and website/src/theme/Root.tsx are UI. src/index.ts only re-exports.
