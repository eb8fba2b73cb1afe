/** The collector runtime: handles updated under one mutex, one goroutine per start, and generation
    counters that keep an old goroutine's exit from touching a newer incarnation. Each action below
    is one critical section or one step of a goroutine, so runs cover every interleaving. */
module CollectorRuntime {
  import opened Wrappers

  datatype State = Stopped | Running | Disabled

  /** `cancel` names the context that the handle's cancel function cancels. */
  datatype Handle = Handle(state: State, reason: string, startedAt: int, cancel: Option<nat>,
                           hasRun: bool, generation: nat)

  /** A started goroutine, until its exit section has run. */
  datatype Goroutine = Goroutine(name: string, generation: nat, returned: bool)

  /** `live` holds the goroutines by context, `owed` the contexts that an in-flight Stop has yet to cancel,
      `stopped` those a Stop has cancelled, and `cancelled` all that have ended: a context also ends with
      the runtime's own, from which it is derived. */
  datatype World = World(handles: map<string, Handle>, live: map<nat, Goroutine>, cancelled: set<nat>,
                         stopped: set<nat>, owed: set<nat>, nextContext: nat, shutdown: bool)

  datatype Action =
    | Register(name: string)
    | MarkDisabled(name: string, reason: string)
    | Start(name: string, now: int)
    | StopBegin(name: string, reason: string)  // Stop, up to the unlock
    | StopCancel(context: nat)                 // Stop, the call of the cancel function
    | Return(context: nat)                     // the collector's run function returns
    | Exit(context: nat)                       // the goroutine's exit section
    | Shutdown                                 // the runtime's own context ends

  function Next(w: World, a: Action): World {
    match a
    case Register(name) =>
      if name in w.handles then w
      else w.(handles := w.handles[name := Handle(Stopped, "", 0, None, true, 0)])
    case MarkDisabled(name, reason) =>
      w.(handles := w.handles[name := Handle(Disabled, reason, 0, None, false, 0)])
    case Start(name, now) =>
      if name !in w.handles || !w.handles[name].hasRun || w.handles[name].state == Running then w else
      var h := w.handles[name];
      var g := h.generation + 1;
      w.(handles := w.handles[name := Handle(Running, "", now, Some(w.nextContext), true, g)],
         live := w.live[w.nextContext := Goroutine(name, g, false)],
         cancelled := if w.shutdown then w.cancelled + {w.nextContext} else w.cancelled,
         nextContext := w.nextContext + 1)
    case StopBegin(name, reason) =>
      if name !in w.handles then w else
      var h := w.handles[name];
      if h.state != Running then
        if reason != "" then w.(handles := w.handles[name := h.(reason := reason)]) else w
      else
        w.(handles := w.handles[name := h.(cancel := None, state := Stopped, reason := reason,
                                           generation := h.generation + 1)],
           owed := w.owed + if h.cancel.Some? then {h.cancel.value} else {})
    case StopCancel(x) =>
      if x in w.owed then w.(owed := w.owed - {x}, stopped := w.stopped + {x}, cancelled := w.cancelled + {x}) else w
    case Return(x) =>
      if x in w.live then w.(live := w.live[x := w.live[x].(returned := true)]) else w
    case Exit(x) =>
      if x !in w.live || !w.live[x].returned then w else
      var g := w.live[x];
      var w := w.(live := w.live - {x});
      if g.name in w.handles && w.handles[g.name].generation == g.generation then
        var h := w.handles[g.name];
        w.(handles := w.handles[g.name := h.(cancel := None, state := Stopped,
                                             reason := if w.shutdown then h.reason else "collector exited")])
      else w
    case Shutdown =>
      w.(shutdown := true, cancelled := w.cancelled + Contexts(w.nextContext))
  }

  /** The contexts made so far. */
  function Contexts(n: nat): (r: set<nat>)
    ensures forall x: nat :: x in r <==> x < n
  {
    if n == 0 then {} else Contexts(n - 1) + {n - 1}
  }

  const Fresh := World(map[], map[], {}, {}, {}, 0, false)

  function RunAll(w: World, actions: seq<Action>): World
    decreases |actions|
  {
    if actions == [] then w else RunAll(Next(w, actions[0]), actions[1..])
  }

  // ---- The runtime as an object ----

  class Runtime {
    var collectors: map<string, Handle>
    var live: map<nat, Goroutine>
    var cancelled: set<nat>
    var stopped: set<nat>
    var owed: set<nat>
    var nextContext: nat
    var shutdown: bool

    ghost function State(): World
      reads this
    {
      World(collectors, live, cancelled, stopped, owed, nextContext, shutdown)
    }

    constructor ()
      ensures State() == Fresh
    {
      collectors, live, cancelled, stopped, owed := map[], map[], {}, {}, {};
      nextContext, shutdown := 0, false;
    }

    method Register(name: string)
      modifies this
      ensures State() == Next(old(State()), Action.Register(name))
    {
      if name in collectors {
        return;
      }
      collectors := collectors[name := Handle(Stopped, "", 0, None, true, 0)];
    }

    method MarkDisabled(name: string, reason: string)
      modifies this
      ensures State() == Next(old(State()), Action.MarkDisabled(name, reason))
    {
      collectors := collectors[name := Handle(Disabled, reason, 0, None, false, 0)];
    }

    /** The critical section of Start and the launch of the goroutine. */
    method Start(name: string, now: int)
      modifies this
      ensures State() == Next(old(State()), Action.Start(name, now))
    {
      if name !in collectors {
        return;
      }
      var h := collectors[name];
      if !h.hasRun || h.state == Running {
        return;
      }
      var context := nextContext;
      nextContext := nextContext + 1;
      if shutdown {
        cancelled := cancelled + {context};
      }
      h := h.(cancel := Some(context), state := Running, reason := "", startedAt := now);
      h := h.(generation := h.generation + 1);
      collectors := collectors[name := h];
      live := live[context := Goroutine(name, h.generation, false)];
    }

    /** The critical section of Stop; it leaves the cancel function to be called after the unlock. */
    method StopBegin(name: string, reason: string) returns (cancel: Option<nat>)
      modifies this
      ensures State() == Next(old(State()), Action.StopBegin(name, reason))
      ensures owed == old(owed) + if cancel.Some? then {cancel.value} else {}
    {
      if name !in collectors {
        return None;
      }
      var h := collectors[name];
      if h.state != Running {
        if reason != "" {
          collectors := collectors[name := h.(reason := reason)];
        }
        return None;
      }
      cancel := h.cancel;
      h := h.(cancel := None, state := Stopped, reason := reason, generation := h.generation + 1);
      collectors := collectors[name := h];
      if cancel.Some? {
        owed := owed + {cancel.value};
      }
    }

    method StopCancel(context: nat)
      requires context in owed
      modifies this
      ensures State() == Next(old(State()), Action.StopCancel(context))
    {
      owed := owed - {context};
      stopped := stopped + {context};
      cancelled := cancelled + {context};
    }

    /** The end of the runtime's own context ends every context derived from it. */
    method Shutdown()
      modifies this
      ensures State() == Next(old(State()), Action.Shutdown)
    {
      shutdown := true;
      for x := 0 to nextContext
        invariant cancelled == old(cancelled) + Contexts(x)
        invariant State() == old(State()).(shutdown := true, cancelled := cancelled)
      {
        cancelled := cancelled + {x};
      }
    }

    /** The exit section of a goroutine whose collector has returned. */
    method Exit(context: nat)
      requires context in live && live[context].returned
      modifies this
      ensures State() == Next(old(State()), Action.Exit(context))
    {
      var g := live[context];
      if g.name in collectors && collectors[g.name].generation == g.generation {
        var h := collectors[g.name].(cancel := None);
        if shutdown {
          h := h.(state := Stopped);
        } else {
          h := h.(state := Stopped, reason := "collector exited");
        }
        collectors := collectors[g.name := h];
      }
      live := live - {context};
    }
  }

  // ---- The invariant ----

  /** The goroutine of context `x` belongs to the present incarnation of its collector. */
  predicate Current(w: World, x: nat) {
    x in w.live && w.live[x].name in w.handles && w.handles[w.live[x].name].generation == w.live[x].generation
  }

  ghost predicate HandleInv(w: World, n: string)
    requires n in w.handles
  {
    var h := w.handles[n];
    && (h.state == Running ==>
          && h.hasRun && h.cancel.Some? && h.cancel.value in w.live
          && w.live[h.cancel.value].name == n && w.live[h.cancel.value].generation == h.generation
          && h.cancel.value !in w.stopped && h.cancel.value !in w.owed)
    && (!h.hasRun ==> h.generation == 0)
  }

  ghost predicate GoroutineInv(w: World, x: nat)
    requires x in w.live
  {
    var g := w.live[x];
    && x < w.nextContext && g.generation > 0 && g.name in w.handles
    && (w.handles[g.name].hasRun ==> g.generation <= w.handles[g.name].generation)
    && (Current(w, x) ==> w.handles[g.name].state == Running && w.handles[g.name].cancel == Some(x))
  }

  /** The contexts that a Stop has cancelled, or has yet to, were all made, and a context has ended exactly
      when a Stop cancelled it or the runtime's own has ended. */
  ghost predicate ContextInv(w: World) {
    && (forall x: nat :: x in w.stopped || x in w.owed ==> x < w.nextContext)
    && (forall x: nat :: x in w.cancelled <==> x in w.stopped || (w.shutdown && x < w.nextContext))
  }

  ghost predicate Inv(w: World) {
    && (forall n :: n in w.handles ==> HandleInv(w, n))
    && (forall x :: x in w.live ==> GoroutineInv(w, x))
    && ContextInv(w)
  }

  lemma NextKeepsHandle(w: World, a: Action, n: string)
    requires Inv(w) && n in Next(w, a).handles
    ensures HandleInv(Next(w, a), n)
  {
    if n in w.handles {
      assert HandleInv(w, n);
      if w.handles[n].cancel.Some? && w.handles[n].cancel.value in w.live {
        assert GoroutineInv(w, w.handles[n].cancel.value);
      }
    }
    match a
    case StopBegin(name, reason) =>
      if name in w.handles { assert HandleInv(w, name); }
    case Exit(x) =>
      if x in w.live { assert GoroutineInv(w, x); }
    case _ =>
  }

  lemma NextKeepsGoroutine(w: World, a: Action, x: nat)
    requires Inv(w) && x in Next(w, a).live
    ensures GoroutineInv(Next(w, a), x)
  {
    if x in w.live {
      assert GoroutineInv(w, x);
      assert HandleInv(w, w.live[x].name);
    }
    match a
    case Exit(y) =>
      if y in w.live { assert GoroutineInv(w, y); }
    case Start(name, now) =>
      if name in w.handles { assert HandleInv(w, name); }
    case _ =>
  }

  lemma NextKeepsContexts(w: World, a: Action)
    requires Inv(w)
    ensures ContextInv(Next(w, a))
  {
    if a.StopBegin? && a.name in w.handles && w.handles[a.name].state == Running {
      assert HandleInv(w, a.name) && GoroutineInv(w, w.handles[a.name].cancel.value);
      assert w.handles[a.name].cancel.value < w.nextContext;
    }
    hide HandleInv, GoroutineInv;
  }

  lemma NextKeepsInv(w: World, a: Action)
    requires Inv(w)
    ensures Inv(Next(w, a))
  {
    hide Next, HandleInv, GoroutineInv, ContextInv;
    var w' := Next(w, a);
    forall n | n in w'.handles ensures HandleInv(w', n) { NextKeepsHandle(w, a, n); }
    forall x | x in w'.live ensures GoroutineInv(w', x) { NextKeepsGoroutine(w, a, x); }
    NextKeepsContexts(w, a);
  }

  lemma {:induction false} RunKeepsInv(w: World, actions: seq<Action>)
    requires Inv(w)
    ensures Inv(RunAll(w, actions))
    decreases |actions|
  {
    if actions != [] {
      NextKeepsInv(w, actions[0]);
      hide Inv, Next;
      RunKeepsInv(Next(w, actions[0]), actions[1..]);
    }
  }

  /** After any interleaving of actions: a collector's state is running exactly when the goroutine of its
      present generation has not run its exit section, and no Stop has cancelled, or has yet to cancel, that goroutine. */
  lemma RunningIffGoroutineLives(actions: seq<Action>, n: string)
    requires n in RunAll(Fresh, actions).handles
    ensures var w := RunAll(Fresh, actions);
            && (w.handles[n].state == Running
                <==> exists x :: x in w.live && w.live[x].name == n && w.live[x].generation == w.handles[n].generation)
            && (forall x :: Current(w, x) ==> x !in w.stopped && x !in w.owed)
  {
    RunKeepsInv(Fresh, actions);
  }

  /** A goroutine that no longer belongs to the present incarnation never does again. */
  lemma StaleStaysStale(w: World, a: Action, x: nat)
    requires Inv(w) && x in w.live && !Current(w, x)
    ensures !Current(Next(w, a), x)
  {
  }

  lemma {:induction false} StaleForever(w: World, actions: seq<Action>, x: nat)
    requires Inv(w) && x < w.nextContext && !Current(w, x)
    ensures !Current(RunAll(w, actions), x)
    decreases |actions|
  {
    if actions != [] {
      NextKeepsInv(w, actions[0]);
      if x in w.live { StaleStaysStale(w, actions[0], x); }
      ContextsAreNew(w, actions[0], x);
      hide Inv, Next, Current;
      StaleForever(Next(w, actions[0]), actions[1..], x);
    }
  }

  lemma ContextsAreNew(w: World, a: Action, x: nat)
    requires x < w.nextContext
    ensures x < Next(w, a).nextContext && (x !in w.live ==> x !in Next(w, a).live)
  {
  }

  /** However long it takes to return, a goroutine that was stopped or replaced leaves every handle as
      its exit section finds it. */
  lemma StaleExitTouchesNoHandle(before: seq<Action>, between: seq<Action>, x: nat)
    requires var w := RunAll(Fresh, before); x in w.live && !Current(w, x)
    ensures var w := RunAll(RunAll(Fresh, before), between);
            Next(w, Exit(x)).handles == w.handles
  {
    RunKeepsInv(Fresh, before);
    StaleForever(RunAll(Fresh, before), between, x);
  }

  // ---- Older goroutines are on their way out ----

  /** Every live goroutine is the present one of its collector, or cancelled, or about to be by a Stop. */
  ghost predicate NoOrphan(w: World) {
    forall x :: x in w.live ==> Current(w, x) || x in w.cancelled || x in w.owed
  }

  /** The action does not overwrite the handle of a running collector, unless the runtime has ended. */
  predicate SparesRunning(w: World, a: Action) {
    a.MarkDisabled? && a.name in w.handles && w.handles[a.name].state == Running ==> w.shutdown
  }

  /** One action keeps every older goroutine cancelled or owed a cancel exactly when it is not a
      MarkDisabled of a running collector while the runtime's own context has not ended. */
  lemma OrphansIff(w: World, a: Action)
    requires Inv(w) && NoOrphan(w)
    ensures NoOrphan(Next(w, a)) <==> SparesRunning(w, a)
  {
    var w' := Next(w, a);
    if !SparesRunning(w, a) {
      assert HandleInv(w, a.name);
      var x := w.handles[a.name].cancel.value;
      assert x in w'.live && !Current(w', x) && x !in w'.cancelled && x !in w'.owed;
    }
  }

  /** Nothing has cancelled the context `x` or is about to, and no handle knows of its goroutine. */
  predicate Loose(w: World, x: nat) {
    !Current(w, x) && x !in w.cancelled && x !in w.owed
  }

  /** A context that no handle knows of is ended by one action alone, the end of the runtime's own. */
  lemma LooseUntilShutdown(w: World, a: Action, x: nat)
    requires Inv(w) && x < w.nextContext && Loose(w, x)
    ensures Loose(Next(w, a), x) <==> !a.Shutdown?
  {
    if a.StopBegin? && a.name in w.handles { assert HandleInv(w, a.name); }
    if x in w.live { assert GoroutineInv(w, x); }
  }

  lemma {:induction false} LooseForever(w: World, actions: seq<Action>, x: nat)
    requires Inv(w) && x < w.nextContext && Loose(w, x)
    requires forall i :: 0 <= i < |actions| ==> !actions[i].Shutdown?
    ensures Loose(RunAll(w, actions), x)
    decreases |actions|
  {
    if actions != [] {
      NextKeepsInv(w, actions[0]);
      LooseUntilShutdown(w, actions[0], x);
      ContextsAreNew(w, actions[0], x);
      hide Inv, Next, Loose;
      LooseForever(Next(w, actions[0]), actions[1..], x);
    }
  }

  const DISABLED_WHILE_RUNNING := [Action.Register("collector"), Action.Start("collector", 0), Action.MarkDisabled("collector", "off")]

  /** A collector registered, started and then marked disabled: whatever happens next, short of the end of
      the runtime's own context, its goroutine is never cancelled. */
  lemma OrphanRun(actions: seq<Action>)
    requires forall i :: 0 <= i < |actions| ==> !actions[i].Shutdown?
    ensures var w := RunAll(Fresh, DISABLED_WHILE_RUNNING); 0 in w.live && !w.live[0].returned && Loose(w, 0)
    ensures Loose(RunAll(RunAll(Fresh, DISABLED_WHILE_RUNNING), actions), 0)
  {
    var a := DISABLED_WHILE_RUNNING;
    assert a[1..][1..] == a[2..] && a[2..][1..] == [];
    var w1 := Next(Fresh, a[0]);
    var w2 := Next(w1, a[1]);
    var w3 := Next(w2, a[2]);
    assert 0 in w3.live && !w3.live[0].returned && Loose(w3, 0) && 0 < w3.nextContext;
    hide Next, Loose;
    assert RunAll(w3, []) == w3 && RunAll(w2, a[2..]) == w3 && RunAll(w1, a[1..]) == w3;
    hide RunAll;
    RunKeepsInv(Fresh, a);
    LooseForever(w3, actions, 0);
  }

  ghost predicate AllSpareRunning(w: World, actions: seq<Action>)
    decreases |actions|
  {
    actions == [] || (SparesRunning(w, actions[0]) && AllSpareRunning(Next(w, actions[0]), actions[1..]))
  }

  lemma {:induction false} RunKeepsNoOrphan(w: World, actions: seq<Action>)
    requires Inv(w) && NoOrphan(w) && AllSpareRunning(w, actions)
    ensures NoOrphan(RunAll(w, actions))
    decreases |actions|
  {
    if actions != [] {
      NextKeepsInv(w, actions[0]);
      OrphansIff(w, actions[0]);
      hide Inv, Next, NoOrphan, SparesRunning;
      RunKeepsNoOrphan(Next(w, actions[0]), actions[1..]);
    }
  }

  /** In every run that marks no running collector disabled before the runtime ends, once no Stop is in flight,
      a collector has at most one goroutine that was not cancelled, and has one exactly when its state is
      running and the runtime's own context has not ended. */
  lemma AtMostOneUncancelled(actions: seq<Action>, n: string)
    requires AllSpareRunning(Fresh, actions) && RunAll(Fresh, actions).owed == {}
    requires n in RunAll(Fresh, actions).handles
    ensures var w := RunAll(Fresh, actions);
            && (forall x, y :: (x in w.live && y in w.live && w.live[x].name == w.live[y].name == n
                                && x !in w.cancelled && y !in w.cancelled) ==> x == y)
            && ((exists x :: x in w.live && w.live[x].name == n && x !in w.cancelled)
                <==> w.handles[n].state == Running && !w.shutdown)
  {
    RunKeepsInv(Fresh, actions);
    RunKeepsNoOrphan(Fresh, actions);
    hide RunAll, AllSpareRunning;
    var w := RunAll(Fresh, actions);
    if w.handles[n].state == Running && !w.shutdown {
      assert HandleInv(w, n);
      var x := w.handles[n].cancel.value;
      assert x in w.live && w.live[x].name == n && x !in w.cancelled;
    }
  }
}
