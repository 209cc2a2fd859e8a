/** The output demultiplexer of the Pyodide provider, as values.

    The runtime has one stdout and one stderr channel for the whole page.
    The provider keeps, per channel, a store mapping each runner id to the
    lines written while that runner was active, and a single slot naming the
    active runner. This module states what one sink callback, a run's reset
    step and a whole sequence of runtime output events do to the two stores;
    the class in provider.dfy is proved against these functions. */
module Demux {

  type RunnerId = string
  type Line = string

  /** `Record<string, string[]>`: runner id to its lines, oldest first. */
  type Store = map<RunnerId, seq<Line>>

  /** `activeRunner.current`: `null` or a runner id. */
  datatype Slot = NoRunner | Runner(id: RunnerId)

  /** The sinks test `!activeRunner.current`, which is JavaScript truthiness:
      both `null` and the empty string read as "no active runner". */
  predicate HasActiveRunner(slot: Slot): (r: bool)
    ensures r <==> slot != NoRunner && slot != Runner("")
  {
    slot.Runner? && slot.id != ""
  }

  /** `prev[runnerId] || []`: a missing entry reads as no lines, so a runner
      with no entry and a runner with an empty one look the same. */
  function Entry(store: Store, id: RunnerId): (r: seq<Line>)
    ensures id in store ==> r == store[id]
    ensures r == [] <==> id !in store || store[id] == []
  {
    if id in store then store[id] else []
  }

  /** The updater one sink callback passes to the store's setter when the
      runtime writes `msg`. With an active runner, `msg` goes at the end of
      that runner's entry and nothing else moves; without one, the whole
      store is replaced by the empty map. */
  function Deliver(store: Store, slot: Slot, msg: Line): (r: Store)
    ensures !HasActiveRunner(slot) ==> r == map[]
    ensures HasActiveRunner(slot) ==> slot.id in r && r[slot.id] == Entry(store, slot.id) + [msg]
    ensures HasActiveRunner(slot) ==> slot.id !in store ==> r[slot.id] == [msg]
    ensures HasActiveRunner(slot) ==> r.Keys == store.Keys + {slot.id}
    ensures HasActiveRunner(slot) ==> r - {slot.id} == store - {slot.id}
  {
    if !HasActiveRunner(slot) then map[]
    else store[slot.id := Entry(store, slot.id) + [msg]]
  }

  /** The updater `run` passes to each setter before executing: the runner's
      entry becomes empty. */
  function Reset(store: Store, id: RunnerId): (r: Store)
    ensures id in r && r[id] == []
    ensures r - {id} == store - {id}
  {
    store[id := []]
  }

  /** The two output channels of the runtime. */
  datatype Stream = Out | Err

  /** One call the runtime makes into a sink while executing code. */
  datatype Event = Event(stream: Stream, msg: Line)

  /** The provider's two stores. */
  datatype Stores = Stores(out: Store, err: Store)

  function Select(s: Stores, stream: Stream): Store {
    match stream
    case Out => s.out
    case Err => s.err
  }

  /** One runtime output event: the sink of its channel updates that
      channel's store, and the other store is not touched. */
  function Emit(s: Stores, slot: Slot, e: Event): (r: Stores)
    ensures Select(r, e.stream) == Deliver(Select(s, e.stream), slot, e.msg)
    ensures forall st :: st != e.stream ==> Select(r, st) == Select(s, st)
  {
    match e.stream
    case Out => s.(out := Deliver(s.out, slot, e.msg))
    case Err => s.(err := Deliver(s.err, slot, e.msg))
  }

  /** A sequence of output events, applied in order with the slot fixed. */
  function EmitAll(s: Stores, slot: Slot, events: seq<Event>): Stores
    decreases |events|
  {
    if events == [] then s
    else Emit(EmitAll(s, slot, events[..|events| - 1]), slot, events[|events| - 1])
  }

  /** The messages of `events` written to `stream`, in order. */
  function Lines(events: seq<Event>, stream: Stream): seq<Line>
    decreases |events|
  {
    if events == [] then []
    else
      var last := events[|events| - 1];
      Lines(events[..|events| - 1], stream) + (if last.stream == stream then [last.msg] else [])
  }

  /** Both reset updaters of `run`. */
  function ResetBoth(s: Stores, id: RunnerId): (r: Stores)
    ensures forall st :: Select(r, st) == Reset(Select(s, st), id)
  {
    Stores(Reset(s.out, id), Reset(s.err, id))
  }

  /** What a run of runner `id` whose code emits `events` does to the
      stores: reset both entries, make `id` active, then deliver the events.
      For a non-empty id, each store ends as it was except that the runner's
      entry is exactly the lines this run wrote to that channel. */
  function RunEffect(s: Stores, id: RunnerId, events: seq<Event>): (r: Stores)
    ensures id != "" ==> forall st :: Select(r, st) == Select(s, st)[id := Lines(events, st)]
  {
    if id != "" then
      RunReportsOnlyThisRun(s, id, events, Out);
      RunReportsOnlyThisRun(s, id, events, Err);
      EmitAll(ResetBoth(s, id), Runner(id), events)
    else
      EmitAll(ResetBoth(s, id), Runner(id), events)
  }

  /** With an active runner, every event goes to the end of that runner's
      entry on the event's channel, in order; no other key of either store
      appears, disappears or changes. */
  lemma {:induction false} EmitAllActive(s: Stores, id: RunnerId, events: seq<Event>, st: Stream)
    requires id != ""
    ensures Entry(Select(EmitAll(s, Runner(id), events), st), id)
         == Entry(Select(s, st), id) + Lines(events, st)
    ensures Select(EmitAll(s, Runner(id), events), st) - {id} == Select(s, st) - {id}
    ensures id in Select(EmitAll(s, Runner(id), events), st)
        <==> id in Select(s, st) || Lines(events, st) != []
    decreases |events|
  {
    if events != [] {
      var init, last := events[..|events| - 1], events[|events| - 1];
      EmitAllActive(s, id, init, st);
      var before := Select(EmitAll(s, Runner(id), init), st);
      var after := Select(EmitAll(s, Runner(id), events), st);
      if last.stream == st {
        assert after == Deliver(before, Runner(id), last.msg);
        assert Lines(events, st) == Lines(init, st) + [last.msg];
        assert Entry(after, id) == Entry(before, id) + [last.msg];
      } else {
        assert after == before;
        assert Lines(events, st) == Lines(init, st);
      }
    }
  }

  /** With no active runner, a channel's store is wiped as soon as one event
      arrives on that channel, and is left as it was if none does. */
  lemma {:induction false} EmitAllIdle(s: Stores, slot: Slot, events: seq<Event>, st: Stream)
    requires !HasActiveRunner(slot)
    ensures Select(EmitAll(s, slot, events), st)
         == if Lines(events, st) == [] then Select(s, st) else map[]
    decreases |events|
  {
    if events != [] {
      var init, last := events[..|events| - 1], events[|events| - 1];
      EmitAllIdle(s, slot, init, st);
      if last.stream != st {
        assert Lines(events, st) == Lines(init, st);
      }
    }
  }

  /** Events delivered after a batch with the same slot continue it: output
      that arrives once a run has finished is attributed exactly as if it had
      been written during that run. */
  lemma {:induction false} EmitAllConcat(s: Stores, slot: Slot, first: seq<Event>, later: seq<Event>)
    ensures EmitAll(EmitAll(s, slot, first), slot, later) == EmitAll(s, slot, first + later)
    decreases |later|
  {
    if later == [] {
      assert first + later == first;
    } else {
      var all := first + later;
      EmitAllConcat(s, slot, first, later[..|later| - 1]);
      assert all[..|all| - 1] == first + later[..|later| - 1];
      assert all[|all| - 1] == later[|later| - 1];
    }
  }

  /** Reset-before-run: once a run of a non-empty id has reset its entries
      and delivered its events, that runner's entry on each channel is
      exactly the lines of this run, whatever it held before, and every
      other runner's entry is as before. */
  lemma RunReportsOnlyThisRun(s: Stores, id: RunnerId, events: seq<Event>, st: Stream)
    requires id != ""
    ensures Select(EmitAll(ResetBoth(s, id), Runner(id), events), st)
         == Select(s, st)[id := Lines(events, st)]
  {
    var start := ResetBoth(s, id);
    EmitAllActive(start, id, events, st);
    var r := Select(EmitAll(start, Runner(id), events), st);
    assert Select(start, st) == Reset(Select(s, st), id);
    assert id in r && r[id] == Lines(events, st);
    AgreeApartFrom(r, Select(s, st), id, Lines(events, st));
  }

  /** A map that agrees with `m` away from `k` and holds `v` at `k` is
      `m[k := v]`. */
  lemma AgreeApartFrom(r: Store, m: Store, k: RunnerId, v: seq<Line>)
    requires r - {k} == m - {k} && k in r && r[k] == v
    ensures r == m[k := v]
  {
    var want := m[k := v];
    assert r.Keys == want.Keys by {
      assert r.Keys == (r - {k}).Keys + {k};
      assert want.Keys == (m - {k}).Keys + {k};
    }
    forall j | j in r ensures r[j] == want[j] {
      if j != k {
        assert r[j] == (r - {k})[j];
        assert want[j] == (m - {k})[j];
      }
    }
  }

  /** Two runners sharing the provider, serialized: runner `a` runs, then `b`.
      Neither run leaks output into the other's entry: each holds exactly the
      lines of its own run, on both channels. */
  lemma SerializedRunsDoNotLeak(s: Stores, a: RunnerId, ea: seq<Event>, b: RunnerId, eb: seq<Event>, st: Stream)
    requires a != "" && b != "" && a != b
    ensures var r := Select(RunEffect(RunEffect(s, a, ea), b, eb), st);
      a in r && r[a] == Lines(ea, st) && b in r && r[b] == Lines(eb, st)
  {
    RunReportsOnlyThisRun(s, a, ea, st);
    RunReportsOnlyThisRun(RunEffect(s, a, ea), b, eb, st);
  }

  /** A run under the empty id leaves the slot falsy: the first line of its
      output on a channel wipes that channel's whole store, every runner's
      history included. */
  lemma EmptyIdLosesAllOutput(s: Stores, events: seq<Event>, st: Stream)
    requires Lines(events, st) != []
    ensures Select(RunEffect(s, "", events), st) == map[]
  {
    EmitAllIdle(ResetBoth(s, ""), Runner(""), events, st);
  }
}
