/** The Pyodide provider: the one component that owns the runtime for the
    page and splits its two global output channels into per-runner stores.

    The provider's React state and its `activeRunner` ref become fields of a
    class; each `setState` updater is applied at once, in program order. The
    runtime itself is not modelled: what `runPythonAsync(code)` does is given
    to `Run` as an `Execution`, the output events it sends to the sinks while
    it runs and how it ends. */
module PyodideProvider {
  import opened Demux

  /** The value a Python evaluation resolves to, kept opaque. */
  datatype PyValue = PyValue(repr: string)

  /** How `runPythonAsync` ends: with a value, or by throwing. */
  datatype Outcome = Completed(value: PyValue) | Raised(message: string)

  /** What the runtime does with one piece of code: the sink calls it makes
      while running, in order, then its outcome. */
  datatype Execution = Execution(events: seq<Event>, outcome: Outcome)

  /** Why `run` rejects: the runtime is absent ("Pyodide is not loaded yet"),
      or the Python code raised. */
  datatype HostError = NotLoaded | PythonError(message: string)

  /** How the promise returned by `run` settles. */
  datatype RunResult = Resolved(value: PyValue) | Rejected(error: HostError)

  class Provider {
    /** The bootstrap script is on the page (`hasScript`). */
    var hasScript: bool
    /** The provider's own `isLoading` state. */
    var loading: bool
    /** `pyodide` is not null: the runtime finished loading. */
    var runtimeLoaded: bool
    /** `activeRunner.current`. */
    var activeRunner: Slot
    var stdoutStore: Store
    var stderrStore: Store

    /** The runtime only ever loads after the script is present, and loading
        ends as the load does. */
    ghost predicate Valid()
      reads this
    {
      runtimeLoaded ==> hasScript && !loading
    }

    /** The `isLoading` the provider publishes to its consumers: loading
        until the script is present, and never once the runtime is ready. */
    function IsLoading(): (r: bool)
      reads this
      ensures !hasScript ==> r
      ensures Valid() && runtimeLoaded ==> !r
    {
      !hasScript || loading
    }

    /** Both stores as one value. */
    function Output(): Stores
      reads this
    {
      Stores(stdoutStore, stderrStore)
    }

    /** A freshly mounted provider: no script, loading, no runtime, no
        active runner and no output. */
    constructor ()
      ensures Valid() && IsLoading()
      ensures !hasScript && loading && !runtimeLoaded
      ensures activeRunner == NoRunner
      ensures stdoutStore == map[] && stderrStore == map[]
    {
      hasScript, loading, runtimeLoaded := false, true, false;
      activeRunner := NoRunner;
      stdoutStore, stderrStore := map[], map[];
    }

    /** The bootstrap script is found on the page or finishes loading. */
    method ScriptAvailable()
      requires Valid()
      modifies this`hasScript
      ensures Valid() && hasScript
    {
      hasScript := true;
    }

    /** The load effect: when the script is present and there is no runtime
        yet, loading is switched on, the runtime is loaded (`loads` says
        whether `loadPyodide` succeeds; a failure is only logged), and
        loading is switched off whatever happened. */
    method InitRuntime(loads: bool)
      requires Valid()
      modifies this`loading, this`runtimeLoaded
      ensures Valid()
      ensures old(hasScript && !runtimeLoaded) ==> !loading && runtimeLoaded == loads
      ensures !old(hasScript && !runtimeLoaded) ==> unchanged(this)
      ensures old(hasScript && !runtimeLoaded) && !loads ==> !IsLoading() && !runtimeLoaded
    {
      if hasScript && !runtimeLoaded {
        loading := true;
        if loads {
          runtimeLoaded := true;
        }
        loading := false;
      }
    }

    /** The stdout sink installed at load time. */
    method StdoutSink(msg: Line)
      modifies this`stdoutStore
      ensures stdoutStore == Deliver(old(stdoutStore), activeRunner, msg)
    {
      if !HasActiveRunner(activeRunner) {
        stdoutStore := map[];
      } else {
        var runnerId := activeRunner.id;
        var runnerOuts := if runnerId in stdoutStore then stdoutStore[runnerId] else [];
        runnerOuts := runnerOuts + [msg];
        stdoutStore := stdoutStore[runnerId := runnerOuts];
      }
    }

    /** The stderr sink installed at load time. */
    method StderrSink(msg: Line)
      modifies this`stderrStore
      ensures stderrStore == Deliver(old(stderrStore), activeRunner, msg)
    {
      if !HasActiveRunner(activeRunner) {
        stderrStore := map[];
      } else {
        var runnerId := activeRunner.id;
        var runnerOuts := if runnerId in stderrStore then stderrStore[runnerId] else [];
        runnerOuts := runnerOuts + [msg];
        stderrStore := stderrStore[runnerId := runnerOuts];
      }
    }

    /** `run(runnerId, code)`: clear the runner's two entries, make it the
        active runner, and only then check that the runtime is there. With
        the runtime, its output events go through the sinks and the call
        settles as the execution ends. The active runner is never cleared
        afterwards. */
    method Run(id: RunnerId, execution: Execution) returns (r: RunResult)
      requires Valid()
      modifies this`stdoutStore, this`stderrStore, this`activeRunner
      ensures Valid()
      ensures activeRunner == Runner(id)
      ensures !runtimeLoaded ==> r == Rejected(NotLoaded) && Output() == ResetBoth(old(Output()), id)
      ensures runtimeLoaded ==> Output() == RunEffect(old(Output()), id, execution.events)
      ensures runtimeLoaded ==> r == match execution.outcome
                                    case Completed(v) => Resolved(v)
                                    case Raised(m) => Rejected(PythonError(m))
    {
      stdoutStore := Reset(stdoutStore, id);
      stderrStore := Reset(stderrStore, id);
      activeRunner := Runner(id);

      if !runtimeLoaded {
        return Rejected(NotLoaded);
      }

      // The runtime's calls into the sinks while `runPythonAsync` runs.
      ghost var start := Output();
      var events := execution.events;
      var i := 0;
      while i < |events|
        invariant 0 <= i <= |events|
        invariant activeRunner == Runner(id)
        invariant Output() == EmitAll(start, Runner(id), events[..i])
      {
        var e := events[i];
        match e.stream {
          case Out => StdoutSink(e.msg);
          case Err => StderrSink(e.msg);
        }
        assert events[..i + 1][..i] == events[..i];
        i := i + 1;
      }
      assert events[..i] == events;

      match execution.outcome {
        case Completed(v) => r := Resolved(v);
        case Raised(m) => r := Rejected(PythonError(m));
      }
    }
  }
}
