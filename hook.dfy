/** The `usePyodide` hook: one consumer's handle on the shared provider.

    A hook holds a runner id (a fresh token at creation), an `isRunning`
    flag and its own package list; it forwards runs to the provider under
    its id and reads back that id's entries of the provider's stores as
    text. Fresh ids are given to the members that need one rather than
    generated, with the promise that no store has an entry for them yet. */
module UsePyodide {
  import opened Demux
  import opened Text
  import opened PyodideProvider

  /** `store[runnerId]?.join("\n") || ""`: the runner's lines joined with
      line breaks, or the empty text when it has no entry. */
  function View(store: Store, id: RunnerId): (r: string)
    ensures id !in store ==> r == ""
    ensures id in store && store[id] == [] ==> r == ""
    ensures id in store && store[id] != [] && NoLineBreaks(store[id]) ==> Split(r) == store[id]
  {
    if id in store then
      if store[id] != [] && NoLineBreaks(store[id]) then
        SplitJoin(store[id]);
        Join(store[id])
      else
        Join(store[id])
    else ""
  }

  /** A sink call for the active runner extends that runner's text by one
      line: after a line break when it already had lines, as the whole text
      when it had none. */
  lemma ViewAfterDeliver(store: Store, slot: Slot, msg: Line)
    requires HasActiveRunner(slot)
    ensures View(Deliver(store, slot, msg), slot.id)
         == if Entry(store, slot.id) == [] then msg else View(store, slot.id) + "\n" + msg
  {
    JoinAppend(Entry(store, slot.id), msg);
  }

  /** After a run of a non-empty id, the hook's text on each channel is
      exactly the lines that run wrote there, joined; nothing from earlier
      runs remains. */
  lemma ViewAfterRun(s: Stores, id: RunnerId, events: seq<Event>, st: Stream)
    requires id != ""
    ensures View(Select(RunEffect(s, id, events), st), id) == Join(Lines(events, st))
  {
    RunReportsOnlyThisRun(s, id, events, st);
  }

  /** A run of another non-empty id leaves this runner's text as it was. */
  lemma ViewUntouchedByOtherRun(s: Stores, mine: RunnerId, other: RunnerId, events: seq<Event>, st: Stream)
    requires other != "" && mine != other
    ensures View(Select(RunEffect(s, other, events), st), mine) == View(Select(s, st), mine)
  {
    RunReportsOnlyThisRun(s, other, events, st);
  }

  /** The text loses nothing: when the runner has lines and none holds a
      line break, they can be read back from the text. */
  lemma ViewRecoversLines(store: Store, id: RunnerId)
    requires id in store && store[id] != [] && NoLineBreaks(store[id])
    ensures Split(View(store, id)) == store[id]
  {
    SplitJoin(store[id]);
  }

  /** What `runPython` resolves to: `undefined` when it refused to run,
      `null` when the run failed, otherwise the run's value. */
  datatype RunPythonResult = Undefined | Null | Returned(value: PyValue)

  /** The `micropip.install` calls the package loop makes, in order, when
      `installs` says which installs succeed: the packages in list order, up
      to and including the first one whose install fails. The loop has no
      error handling, so a failed install ends it. */
  function InstallPlan(packages: seq<string>, installs: string -> bool): (r: seq<string>)
    ensures |r| <= |packages|
    ensures packages != [] ==> r != [] && r[0] == packages[0]
    ensures packages != [] && !installs(packages[0]) ==> r == [packages[0]]
    decreases |packages|
  {
    if packages == [] then []
    else if !installs(packages[0]) then [packages[0]]
    else [packages[0]] + InstallPlan(packages[1..], installs)
  }

  /** The install calls follow the list: they are a prefix of it, every
      package but the last called installed, and the loop stops early only
      at a failed install. */
  lemma {:induction false} InstallPlanInOrder(packages: seq<string>, installs: string -> bool)
    ensures var r := InstallPlan(packages, installs);
      && r <= packages
      && (forall i :: 0 <= i < |r| - 1 ==> installs(r[i]))
      && (r == packages || (r != [] && !installs(r[|r| - 1])))
    decreases |packages|
  {
    if packages != [] && installs(packages[0]) {
      var tail := packages[1..];
      InstallPlanInOrder(tail, installs);
      var r, rt := InstallPlan(packages, installs), InstallPlan(tail, installs);
      assert r == [packages[0]] + rt;
      assert packages == [packages[0]] + tail;
      forall i | 0 <= i < |r| - 1 ensures installs(r[i]) {
        if i > 0 {
          assert r[i] == rt[i - 1];
        }
      }
    }
  }

  /** Packages that installed do not change the rest of the plan. */
  lemma {:induction false} InstallPlanAfter(packages: seq<string>, installs: string -> bool, i: nat)
    requires i <= |packages|
    requires forall j :: 0 <= j < i ==> installs(packages[j])
    ensures InstallPlan(packages, installs) == packages[..i] + InstallPlan(packages[i..], installs)
    decreases i
  {
    if i > 0 {
      InstallPlanAfter(packages, installs, i - 1);
      var from := packages[i - 1..];
      assert from[0] == packages[i - 1] && from[1..] == packages[i..];
      assert InstallPlan(from, installs) == [packages[i - 1]] + InstallPlan(packages[i..], installs);
      assert packages[..i] == packages[..i - 1] + [packages[i - 1]];
    } else {
      assert packages[..0] + InstallPlan(packages[0..], installs) == InstallPlan(packages, installs);
    }
  }

  class Hook {
    /** The provider found through the React context. */
    const host: Provider
    var runnerId: RunnerId
    var isRunning: bool
    var packages: seq<string>
    /** The `isRunning` the hook showed while its last forwarded run was
        in progress. */
    ghost var runningDuringRun: bool

    /** A new hook with a fresh token: its texts start empty. */
    constructor (host: Provider, token: RunnerId, packages: seq<string>)
      requires token !in host.stdoutStore && token !in host.stderrStore
      ensures this.host == host && runnerId == token && this.packages == packages
      ensures !isRunning
      ensures Stdout() == "" && Stderr() == ""
    {
      this.host := host;
      runnerId := token;
      isRunning := false;
      this.packages := packages;
      runningDuringRun := false;
    }

    /** The hook's `stdout`: empty while its token has no entry, otherwise
        a text from which the entry's lines can be read back. */
    function Stdout(): (r: string)
      reads this, host
      ensures runnerId !in host.stdoutStore ==> r == ""
      ensures (runnerId in host.stdoutStore && host.stdoutStore[runnerId] != []
               && NoLineBreaks(host.stdoutStore[runnerId])) ==> Split(r) == host.stdoutStore[runnerId]
    {
      View(host.stdoutStore, runnerId)
    }

    /** The hook's `stderr`: empty while its token has no entry, otherwise
        a text from which the entry's lines can be read back. */
    function Stderr(): (r: string)
      reads this, host
      ensures runnerId !in host.stderrStore ==> r == ""
      ensures (runnerId in host.stderrStore && host.stderrStore[runnerId] != []
               && NoLineBreaks(host.stderrStore[runnerId])) ==> Split(r) == host.stderrStore[runnerId]
    {
      View(host.stderrStore, runnerId)
    }

    /** `runPython(code)`, where `execution` is what the runtime does with
        `code`. While the provider is loading it does nothing and resolves to
        `undefined`. Otherwise it raises `isRunning` around the provider's
        `run`, turns a rejection into `null`, and always lowers the flag. */
    method RunPython(execution: Execution) returns (r: RunPythonResult)
      requires host.Valid()
      modifies this`isRunning, this`runningDuringRun
      modifies host`stdoutStore, host`stderrStore, host`activeRunner
      ensures host.Valid()
      ensures host.IsLoading() ==> r == Undefined && isRunning == old(isRunning)
      ensures host.IsLoading() ==>
                host.Output() == old(host.Output()) && host.activeRunner == old(host.activeRunner)
      ensures !host.IsLoading() ==> !isRunning && runningDuringRun
      ensures !host.IsLoading() ==> host.activeRunner == Runner(runnerId)
      ensures !host.IsLoading() && !host.runtimeLoaded ==>
                r == Null && host.Output() == ResetBoth(old(host.Output()), runnerId)
      ensures host.runtimeLoaded ==>
                host.Output() == RunEffect(old(host.Output()), runnerId, execution.events)
      ensures host.runtimeLoaded ==> r == match execution.outcome
                                         case Completed(v) => Returned(v)
                                         case Raised(_) => Null
      ensures !host.IsLoading() && runnerId != "" ==>
                Stdout() == (if host.runtimeLoaded then Join(Lines(execution.events, Out)) else "")
                && Stderr() == (if host.runtimeLoaded then Join(Lines(execution.events, Err)) else "")
    {
      if host.IsLoading() {
        return Undefined;
      }

      r := Null;
      isRunning := true;
      runningDuringRun := isRunning;
      ghost var before := host.Output();
      var settled := host.Run(runnerId, execution);
      if settled.Resolved? {
        r := Returned(settled.value);
      }
      isRunning := false;

      if runnerId != "" && host.runtimeLoaded {
        ViewAfterRun(before, runnerId, execution.events, Out);
        ViewAfterRun(before, runnerId, execution.events, Err);
      }
    }

    /** `newRunnerId()`: the hook takes a fresh token, so both its texts read
        empty; the provider's stores, the old token's lines among them, are
        not touched. */
    method NewRunnerId(token: RunnerId)
      requires token !in host.stdoutStore && token !in host.stderrStore
      modifies this`runnerId
      ensures runnerId == token
      ensures Stdout() == "" && Stderr() == ""
      ensures host.Output() == old(host.Output())
    {
      runnerId := token;
    }

    /** `setRunnerId(id)`: the hook now reads and runs under `id`. */
    method SetRunnerId(id: RunnerId)
      modifies this`runnerId
      ensures runnerId == id
      ensures Stdout() == View(host.stdoutStore, id) && Stderr() == View(host.stderrStore, id)
      ensures host.Output() == old(host.Output())
    {
      runnerId := id;
    }

    /** `setPackages(list)`. */
    method SetPackages(list: seq<string>)
      modifies this`packages
      ensures packages == list
    {
      packages := list;
    }

    /** The package effect: nothing while the provider is loading; with the
        runtime, one `micropip.install` per package in list order, each
        awaited before the next, stopping at the first that fails. When
        loading has ended without a runtime, `micropip` is undefined and the
        first install call throws before installing anything. Returns the
        install calls made and whether the effect's promise rejected. */
    method LoadPackages(installs: string -> bool) returns (attempted: seq<string>, rejected: bool)
      requires host.Valid()
      ensures host.IsLoading() ==> attempted == [] && !rejected
      ensures !host.IsLoading() && !host.runtimeLoaded ==> attempted == [] && rejected == (packages != [])
      ensures host.runtimeLoaded ==> attempted == InstallPlan(packages, installs)
      ensures host.runtimeLoaded ==>
                (rejected <==> exists i :: 0 <= i < |packages| && !installs(packages[i]))
    {
      if host.IsLoading() {
        return [], false;
      }
      if !host.runtimeLoaded {
        return [], packages != [];
      }
      attempted, rejected := [], false;
      var i := 0;
      while i < |packages|
        invariant 0 <= i <= |packages|
        invariant attempted == packages[..i]
        invariant forall j :: 0 <= j < i ==> installs(packages[j])
      {
        var pkg := packages[i];
        attempted := attempted + [pkg];
        if !installs(pkg) {
          rejected := true;
          InstallPlanAfter(packages, installs, i);
          assert attempted == packages[..i + 1];
          return;
        }
        i := i + 1;
      }
      InstallPlanAfter(packages, installs, i);
      assert packages[..i] == packages;
    }
  }

  /** Two hooks on one provider, run one after the other: each ends up
      showing exactly its own run's output, with no line of the other's. */
  method SerializedHooks(p: Provider, a: Hook, b: Hook, ea: Execution, eb: Execution)
    requires p.Valid() && p.runtimeLoaded
    requires a.host == p && b.host == p
    requires a.runnerId != "" && b.runnerId != "" && a.runnerId != b.runnerId
    modifies a, b, p
    ensures a.Stdout() == Join(Lines(ea.events, Out)) && a.Stderr() == Join(Lines(ea.events, Err))
    ensures b.Stdout() == Join(Lines(eb.events, Out)) && b.Stderr() == Join(Lines(eb.events, Err))
  {
    var ra := a.RunPython(ea);
    ghost var mid := p.Output();
    var rb := b.RunPython(eb);
    ViewUntouchedByOtherRun(mid, a.runnerId, b.runnerId, eb.events, Out);
    ViewUntouchedByOtherRun(mid, a.runnerId, b.runnerId, eb.events, Err);
  }
}
