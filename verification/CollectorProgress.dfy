/** What the actions of the collector runtime bring about: that a Start starts, that a Stop stops, and that a stopped
    collector starts again, after any run. */
module CollectorProgress {
  import opened Wrappers
  import opened CollectorRuntime

  // ---- What Start, Stop and a goroutine's exit bring about ----

  lemma {:induction false} RunSnoc(w: World, actions: seq<Action>, a: Action)
    ensures RunAll(w, actions + [a]) == Next(RunAll(w, actions), a)
    decreases |actions|
  {
    hide Next;
    if actions == [] {
      assert [] + [a] == [a] && [a][1..] == [];
      assert RunAll(Next(w, a), []) == Next(w, a);
    } else {
      assert (actions + [a])[1..] == actions[1..] + [a];
      RunSnoc(Next(w, actions[0]), actions[1..], a);
    }
  }

  predicate WasRegistered(actions: seq<Action>, n: string) {
    exists a :: a in actions && a.Register? && a.name == n
  }

  predicate WasDisabled(actions: seq<Action>, n: string) {
    exists a :: a in actions && a.MarkDisabled? && a.name == n
  }

  lemma EventsExtend(actions: seq<Action>, a: Action, n: string)
    ensures WasRegistered(actions + [a], n) <==> WasRegistered(actions, n) || (a.Register? && a.name == n)
    ensures WasDisabled(actions + [a], n) <==> WasDisabled(actions, n) || (a.MarkDisabled? && a.name == n)
  {
    var all := actions + [a];
    assert all[|actions|] == a;
    forall b | b in actions ensures b in all {}
  }

  predicate Runnable(w: World, n: string) {
    n in w.handles && w.handles[n].hasRun
  }

  lemma NextRunnable(w: World, a: Action, n: string)
    ensures n in Next(w, a).handles <==> n in w.handles || ((a.Register? || a.MarkDisabled?) && a.name == n)
    ensures Runnable(Next(w, a), n) <==> !(a.MarkDisabled? && a.name == n)
                                         && (Runnable(w, n) || (a.Register? && a.name == n && n !in w.handles))
  {
  }

  /** A collector can run exactly when it was registered and never marked disabled. */
  lemma {:induction false} RunnableIff(actions: seq<Action>, n: string)
    ensures var w := RunAll(Fresh, actions);
            && (n in w.handles <==> WasRegistered(actions, n) || WasDisabled(actions, n))
            && (Runnable(w, n) <==> WasRegistered(actions, n) && !WasDisabled(actions, n))
    decreases |actions|
  {
    if actions != [] {
      var k := |actions| - 1;
      var front, a := actions[..k], actions[k];
      assert actions == front + [a];
      hide Next, WasRegistered, WasDisabled, Runnable, RunAll;
      RunnableIff(front, n);
      RunSnoc(Fresh, front, a);
      EventsExtend(front, a, n);
      NextRunnable(RunAll(Fresh, front), a, n);
    }
  }

  /** A goroutine of `n` that the world has seen, with a generation above `g`. */
  ghost predicate Outnumbers(w: World, n: string, g: nat) {
    forall x :: x in w.live && w.live[x].name == n ==> w.live[x].generation < g
  }

  lemma GenerationsGrow(w: World, a: Action, n: string)
    requires Runnable(w, n) && Runnable(Next(w, a), n)
    ensures w.handles[n].generation <= Next(w, a).handles[n].generation
  {
  }

  lemma ReachedInv(actions: seq<Action>)
    ensures Inv(RunAll(Fresh, actions))
  {
    RunKeepsInv(Fresh, actions);
  }

  /** Up to any point the handle's generation, where there is one that can run, is at most the last. */
  lemma {:induction false} GenerationBound(actions: seq<Action>, i: nat, n: string)
    requires i <= |actions| && Runnable(RunAll(Fresh, actions), n)
    ensures var w := RunAll(Fresh, actions[..i]);
            n in w.handles ==> Runnable(w, n) && w.handles[n].generation <= RunAll(Fresh, actions).handles[n].generation
    decreases |actions| - i
  {
    hide Next, RunAll;
    if i == |actions| {
      assert actions[..i] == actions;
    } else {
      GenerationBound(actions, i + 1, n);
      var w, a := RunAll(Fresh, actions[..i]), actions[i];
      assert actions[..i + 1] == actions[..i] + [a];
      RunSnoc(Fresh, actions[..i], a);
      NextRunnable(w, a, n);
      if Runnable(w, n) { GenerationsGrow(w, a, n); }
    }
  }

  lemma LiveBound(w: World, n: string, g: nat)
    requires Inv(w) && (n in w.handles ==> Runnable(w, n) && w.handles[n].generation <= g)
    ensures Outnumbers(w, n, g + 1)
  {
    forall x | x in w.live && w.live[x].name == n ensures w.live[x].generation < g + 1 { assert GoroutineInv(w, x); }
  }

  lemma OldGenerations(actions: seq<Action>, i: nat, n: string)
    requires i <= |actions| && Runnable(RunAll(Fresh, actions), n)
    ensures Outnumbers(RunAll(Fresh, actions[..i]), n, RunAll(Fresh, actions).handles[n].generation + 1)
  {
    hide RunAll, Inv, Outnumbers;
    ReachedInv(actions[..i]);
    GenerationBound(actions, i, n);
    LiveBound(RunAll(Fresh, actions[..i]), n, RunAll(Fresh, actions).handles[n].generation);
  }

  predicate IsRunning(w: World, n: string) {
    n in w.handles && w.handles[n].state == Running
  }

  /** What one Start does to a world the runtime can be in. */
  lemma StartStep(w: World, n: string, t: int)
    requires Inv(w)
    ensures var w' := Next(w, Start(n, t));
            && (IsRunning(w', n) <==> Runnable(w, n))
            && (!Runnable(w, n) || IsRunning(w, n) ==> w' == w)
            && (Runnable(w, n) && !IsRunning(w, n) ==> Launched(w, w', n, t))
  {
    if n in w.handles { assert HandleInv(w, n); }
    forall x | x in w.live ensures x < w.nextContext { assert GoroutineInv(w, x); }
  }

  /** A goroutine of a new context and the next generation belongs to `n`, and only the end of the runtime's own
      context has ended it; no other collector and no other goroutine is touched. */
  ghost predicate Launched(w: World, w': World, n: string, t: int) {
    var x := w.nextContext;
    && n in w.handles && n in w'.handles && x !in w.live && x in w'.live && Current(w', x) && !w'.live[x].returned
    && w'.live[x].name == n && w'.live[x].generation == w.handles[n].generation + 1
    && x !in w'.stopped && x !in w'.owed && (x in w'.cancelled <==> w.shutdown)
    && w'.handles[n].startedAt == t && w'.handles[n].reason == ""
    && (forall y :: y in w.live ==> y in w'.live && w'.live[y] == w.live[y])
    && (forall m :: m in w.handles && m != n ==> m in w'.handles && w'.handles[m] == w.handles[m])
  }

  /** After a Start a collector runs exactly when it was registered at some point and never marked disabled. If it did
      not run before, it has a new goroutine, not yet returned, of a generation above that of every goroutine it has ever
      had, which no Stop has cancelled or is about to, and which has ended only if the runtime has; and if it ran, or
      cannot run, nothing changes. */
  lemma StartStarts(actions: seq<Action>, n: string, t: int)
    ensures var w, w' := RunAll(Fresh, actions), RunAll(Fresh, actions + [Start(n, t)]);
            && (IsRunning(w', n) <==> WasRegistered(actions, n) && !WasDisabled(actions, n))
            && (!IsRunning(w', n) || IsRunning(w, n) ==> w' == w)
            && (IsRunning(w', n) && !IsRunning(w, n) ==>
                  Launched(w, w', n, t)
                  && forall i :: 0 <= i <= |actions| ==> Outnumbers(RunAll(Fresh, actions[..i]), n, w'.handles[n].generation))
  {
    hide RunAll, Inv, Outnumbers, WasRegistered, WasDisabled, Next, Launched;
    ReachedInv(actions);
    RunSnoc(Fresh, actions, Start(n, t));
    RunnableIff(actions, n);
    var w := RunAll(Fresh, actions);
    StartStep(w, n, t);
    if Runnable(w, n) && !IsRunning(w, n) {
      LaunchedGeneration(w, Next(w, Start(n, t)), n, t);
      forall i | 0 <= i <= |actions| ensures Outnumbers(RunAll(Fresh, actions[..i]), n, w.handles[n].generation + 1) {
        OldGenerations(actions, i, n);
      }
    }
  }

  lemma LaunchedGeneration(w: World, w': World, n: string, t: int)
    requires Launched(w, w', n, t)
    ensures n in w.handles && n in w'.handles && w'.handles[n].generation == w.handles[n].generation + 1
  {
  }

  /** What the locked half of a Stop leaves: the collector does not run, and the goroutine that was its own is owed a
      cancel and never touches its handle again; a collector that did not run keeps all but the reason given. */
  ghost predicate Halted(w: World, w': World, n: string, reason: string) {
    && !IsRunning(w', n) && w'.live == w.live
    && (forall x :: Current(w, x) && w.live[x].name == n ==> x in w'.owed && !Current(w', x))
    && (forall x :: x in w'.owed && x !in w.owed ==> Current(w, x) && w.live[x].name == n)
    && (IsRunning(w, n) ==> n in w'.handles && w'.handles[n].reason == reason && w'.handles[n].hasRun == w.handles[n].hasRun)
    && (n in w.handles && !IsRunning(w, n) ==>
          n in w'.handles && w'.handles[n] == w.handles[n].(reason := if reason == "" then w.handles[n].reason else reason))
    && (forall m :: m in w.handles && m != n ==> m in w'.handles && w'.handles[m] == w.handles[m])
  }

  lemma StopStep(w: World, n: string, reason: string)
    requires Inv(w)
    ensures Halted(w, Next(w, StopBegin(n, reason)), n, reason)
  {
    if n in w.handles { assert HandleInv(w, n); }
    forall x | Current(w, x) && w.live[x].name == n ensures w.handles[n].state == Running && w.handles[n].cancel == Some(x) {
      assert GoroutineInv(w, x);
    }
  }

  lemma StopStops(actions: seq<Action>, n: string, reason: string)
    ensures Halted(RunAll(Fresh, actions), RunAll(Fresh, actions + [StopBegin(n, reason)]), n, reason)
  {
    hide RunAll, Inv, Halted, Next;
    ReachedInv(actions);
    RunSnoc(Fresh, actions, StopBegin(n, reason));
    StopStep(RunAll(Fresh, actions), n, reason);
  }

  /** So a stopped collector starts again: whatever came before, a Stop and then a Start leave a collector that can run
      with a new goroutine. */
  lemma StopThenStart(actions: seq<Action>, n: string, reason: string, t: int)
    requires WasRegistered(actions, n) && !WasDisabled(actions, n)
    ensures var w := RunAll(Fresh, actions + [StopBegin(n, reason)]);
            Launched(w, RunAll(Fresh, actions + [StopBegin(n, reason)] + [Start(n, t)]), n, t)
  {
    hide RunAll, Launched, Outnumbers, WasRegistered, WasDisabled;
    StopStops(actions, n, reason);
    EventsExtend(actions, StopBegin(n, reason), n);
    StartStarts(actions + [StopBegin(n, reason)], n, t);
  }

  /** Once a goroutine's collector returns, its exit section takes it off the list, and before that it does nothing. The
      collector stops exactly when the goroutine is the present one, and keeps its reason only if the runtime has ended. */
  lemma ExitStops(w: World, x: nat)
    requires Inv(w) && x in w.live
    ensures !w.live[x].returned ==> Next(w, Exit(x)) == w
    ensures var n, w' := w.live[x].name, Next(Next(w, Return(x)), Exit(x));
            && x !in w'.live && (forall y :: y in w.live && y != x ==> y in w'.live && w'.live[y] == w.live[y])
            && n in w.handles && n in w'.handles
            && (Current(w, x) ==> IsRunning(w, n) && !IsRunning(w', n)
                                  && w'.handles[n].reason == (if w.shutdown then w.handles[n].reason else "collector exited"))
            && (!Current(w, x) ==> w'.handles == w.handles)
  {
    assert GoroutineInv(w, x);
  }
}
