/** What the drain protocol does with completions and events: every completion and every signal is
    closed once at most, no event gets lost on the way, and completion events go first. */
module DrainCompletions {
  import opened Drain

  /** Where a completion handed out and not yet closed is kept. */
  ghost predicate KeptBy(s: State, i: Event, a: Actor) {
    match a
    case ByDispatcher(d) => d == i && i in s.waiters
    case ByRun(r) => ClosesFor(s, r, i)
    case ByWorker(k) => k in s.workers && i in s.workers[k].batch
  }

  /** Each is kept in one place, none of the closed ones is kept, and only completions handed out are
      kept or closed; a run that pushed its deferred events back has none. */
  ghost predicate OnceInv(s: State) {
    && (forall i, a, b :: KeptBy(s, i, a) && KeptBy(s, i, b) ==> a == b)
    && (forall i, a :: KeptBy(s, i, a) ==> i !in s.done && At(s, i, Handed))
    && (forall i :: i in s.done ==> At(s, i, Handed))
    && (forall r :: r in s.runs && AfterRestore(s.runs[r].pc) ==> s.runs[r].deferred == {})
  }

  predicate AfterRestore(pc: RunPc) {
    pc.Restored? || pc.Completed? || pc.Signalled?
  }

  /** Where a completion kept after the step was kept before it, unless it has just been handed out. */
  function Before(s: State, step: Step, i: Event, a: Actor): Actor {
    if step.OfWorker? && step.w.Take? && a == ByWorker(step.k) then ByDispatcher(i) else a
  }

  lemma DispatcherKeepsOnce(s: State, i: Event, step: DispatcherStep)
    requires Inv(s) && OnceInv(s) && DispatcherMay(s, i, step)
    ensures OnceInv(DispatcherDo(s, i, step))
  {
    hide Inv;
    var s' := DispatcherDo(s, i, step);
    forall j, a | KeptBy(s', j, a)
      ensures if j == i then (step.Spawn? && a == ByRun(step.r)) || (step.Register? && a == ByDispatcher(i))
              else KeptBy(s, j, a)
      ensures j !in s'.done && At(s', j, Handed)
    {
      if KeptBy(s, j, a) {
        assert At(s, j, Handed);
      }
    }
    assert forall j :: At(s, j, Handed) ==> At(s', j, Handed);
  }

  lemma RunKeepsKept(s: State, r: Id, step: RunStep, j: Event, a: Actor)
    requires OnceInv(s) && RunMay(s, r, step) && KeptBy(RunDo(s, r, step), j, a)
    ensures KeptBy(s, j, a) && j !in RunDo(s, r, step).done
  {
    assert KeptBy(s, j, a) by {
      match a
      case ByDispatcher(_) =>
      case ByWorker(_) =>
      case ByRun(q) => assert ClosesFor(RunDo(s, r, step), q, j);
    }
    if step.Complete? && s.runs[r].kind == Direct(j) {
      assert a != ByRun(r) && KeptBy(s, j, ByRun(r));
      assert false;
    }
  }

  lemma RunKeepsOnce(s: State, r: Id, step: RunStep)
    requires OnceInv(s) && RunMay(s, r, step)
    ensures OnceInv(RunDo(s, r, step))
  {
    var s' := RunDo(s, r, step);
    forall j, a | KeptBy(s', j, a)
      ensures KeptBy(s, j, a) && j !in s'.done
    {
      RunKeepsKept(s, r, step, j, a);
    }
    if step.Complete? && s.runs[r].kind.Direct? {
      assert KeptBy(s, s.runs[r].kind.dispatcher, ByRun(r));
    }
  }

  lemma WorkerKeepsOnce(s: State, k: Id, step: WorkerStep)
    requires Inv(s) && OnceInv(s) && WorkerMay(s, k, step)
    ensures OnceInv(WorkerDo(s, k, step))
  {
    hide Inv;
    ArmedHasNone(s, k);
    var s' := WorkerDo(s, k, step);
    forall j, a | KeptBy(s', j, a)
      ensures KeptBy(s, j, if step.Take? && a == ByWorker(k) then ByDispatcher(j) else a) && j !in s'.done
    {
      WorkerKeepsKept(s, k, step, j, a);
    }
    WorkerCloses(s, k, step);
    assert s'.runs.Keys >= s.runs.Keys && s'.dispatchers == s.dispatchers;
    forall r | r in s'.runs && AfterRestore(s'.runs[r].pc)
      ensures s'.runs[r].deferred == {}
    {
      assert r in s.runs && s'.runs[r] == s.runs[r];
    }
    hide WorkerDo, WorkerMay, KeptBy;
  }

  lemma ArmedHasNone(s: State, k: Id)
    requires Inv(s) && k in s.workers
    ensures s.workers[k].pc == WorkerArmed ==> s.workers[k].batch == {}
  {
    assert BatchInv(s, k);
  }

  lemma WorkerKeepsKept(s: State, k: Id, step: WorkerStep, j: Event, a: Actor)
    requires OnceInv(s) && WorkerMay(s, k, step) && KeptBy(WorkerDo(s, k, step), j, a)
    requires s.workers[k].pc == WorkerArmed ==> s.workers[k].batch == {}
    ensures KeptBy(s, j, if step.Take? && a == ByWorker(k) then ByDispatcher(j) else a)
    ensures j !in WorkerDo(s, k, step).done
  {
    assert KeptBy(s, j, if step.Take? && a == ByWorker(k) then ByDispatcher(j) else a) by {
      match a
      case ByDispatcher(_) =>
      case ByWorker(_) =>
      case ByRun(q) => assert ClosesFor(WorkerDo(s, k, step), q, j);
    }
    if step.CloseBatch? && j in s.workers[k].batch {
      assert KeptBy(s, j, ByWorker(k));
    }
  }

  /** What the worker closes was handed out. */
  lemma WorkerCloses(s: State, k: Id, step: WorkerStep)
    requires OnceInv(s) && WorkerMay(s, k, step)
    ensures forall j :: j in WorkerDo(s, k, step).done ==> At(WorkerDo(s, k, step), j, Handed)
  {
    if step.CloseBatch? {
      assert forall j :: j in s.workers[k].batch ==> KeptBy(s, j, ByWorker(k));
    }
  }

  lemma {:induction false} OnceAlways(steps: seq<Step>)
    requires Executable(steps)
    ensures OnceInv(After(steps))
    decreases |steps|
  {
    hide OnceInv, Inv, DispatcherMay, RunMay, WorkerMay, DispatcherDo, RunDo, WorkerDo;
    if steps == [] {
      InitOnce();
    } else {
      var before, step := After(steps[..|steps| - 1]), steps[|steps| - 1];
      OnceAlways(steps[..|steps| - 1]);
      InvAlways(steps[..|steps| - 1]);
      match step
      case OfDispatcher(i, d) => DispatcherKeepsOnce(before, i, d);
      case OfRun(r, p) => RunKeepsOnce(before, r, p);
      case OfWorker(k, w) => WorkerKeepsOnce(before, k, w);
    }
  }

  lemma InitOnce()
    ensures OnceInv(Init())
  {
  }

  /** Nothing that is closed is ever closed again: neither the completion of a dispatch, on either
      path, nor the signal of the processing lock. */
  lemma ClosedOnce(steps: seq<Step>, step: Step)
    requires Executable(steps) && Enabled(After(steps), step)
    ensures var s := After(steps);
            match step
            case OfRun(r, Complete) => s.runs[r].kind.Direct? ==> s.runs[r].kind.dispatcher !in s.done
            case OfRun(r, Signal) => s.current !in s.closed
            case OfWorker(k, CloseBatch) => s.workers[k].batch !! s.done
            case _ => true
  {
    var s := After(steps);
    OnceAlways(steps);
    InvAlways(steps);
    match step
    case OfRun(r, Complete) =>
      if s.runs[r].kind.Direct? {
        assert KeptBy(s, s.runs[r].kind.dispatcher, ByRun(r));
      }
    case OfRun(r, Signal) =>
      var h :| LockedBy(s, h);
      assert Holds(s, ByRun(r)) && HoldsOpenSignal(s, ByRun(r));
    case OfWorker(k, CloseBatch) =>
      assert forall i :: i in s.workers[k].batch ==> KeptBy(s, i, ByWorker(k));
    case _ =>
  }

  // ----- no event gets lost -----

  /** The event is queued or put aside. */
  ghost predicate Held(s: State, x: Event) {
    x in s.queue || exists r :: PutAside(s, r, x)
  }

  predicate PutAside(s: State, r: Id, x: Event) {
    r in s.runs && x in s.runs[r].deferred
  }

  /** The steps that are done with an event. */
  predicate DoneWith(step: Step, x: Event) {
    step.OfRun? && (step.p == Pop(x, false) || step.p == Discard(x))
  }

  lemma StepHolds(s: State, step: Step, x: Event)
    requires Inv(s) && OnceInv(s) && Enabled(s, step) && Held(s, x) && !DoneWith(step, x)
    ensures Held(Do(s, step), x)
  {
    hide Inv;
    match step
    case OfDispatcher(i, d) => DispatcherHolds(s, i, d, x);
    case OfRun(r, p) => RunHolds(s, r, p, x);
    case OfWorker(k, w) => WorkerHolds(s, k, w, x);
  }

  lemma DispatcherHolds(s: State, i: Event, step: DispatcherStep, x: Event)
    requires DispatcherMay(s, i, step) && Held(s, x)
    ensures Held(DispatcherDo(s, i, step), x)
  {
    if x !in s.queue {
      var r :| PutAside(s, r, x);
      assert PutAside(DispatcherDo(s, i, step), r, x);
    }
  }

  lemma RunHolds(s: State, r: Id, step: RunStep, x: Event)
    requires OnceInv(s) && RunMay(s, r, step) && Held(s, x) && step != Pop(x, false) && step != Discard(x)
    ensures Held(RunDo(s, r, step), x)
  {
    var s' := RunDo(s, r, step);
    if step == Pop(x, true) {
      assert PutAside(s', r, x);
    } else if x !in s.queue {
      var q :| PutAside(s, q, x);
      assert x in s'.queue || PutAside(s', q, x);
    }
  }

  lemma WorkerHolds(s: State, k: Id, step: WorkerStep, x: Event)
    requires WorkerMay(s, k, step) && Held(s, x)
    ensures Held(WorkerDo(s, k, step), x)
  {
    if x !in s.queue {
      var r :| PutAside(s, r, x);
      assert PutAside(WorkerDo(s, k, step), r, x);
    }
  }

  /** The steps that bring an event. */
  predicate Brings(step: Step, x: Event) {
    step == OfDispatcher(x, Dispatch) || (step.OfRun? && step.p == Raise(x))
  }

  /** Every event dispatched or raised is queued or put aside until it is consumed or discarded,
      whichever runs and workers it passes through. */
  lemma {:induction false} EventIsHeld(steps: seq<Step>, x: Event, b: nat)
    requires Executable(steps) && b < |steps| && Brings(steps[b], x)
    ensures Held(After(steps), x) || exists n :: b < n < |steps| && DoneWith(steps[n], x)
    decreases |steps|
  {
    hide Inv, OnceInv, Held, Do, DoneWith, Brings;
    var front, last := steps[..|steps| - 1], steps[|steps| - 1];
    if b == |steps| - 1 {
      JustBrought(After(front), last, x);
    } else {
      assert front[b] == steps[b];
      EventIsHeld(front, x, b);
      if n :| b < n < |front| && DoneWith(front[n], x) {
        assert DoneWith(steps[n], x);
      } else if DoneWith(last, x) {
        assert DoneWith(steps[|steps| - 1], x);
      } else {
        InvAlways(front);
        OnceAlways(front);
        StepHolds(After(front), last, x);
      }
    }
  }

  lemma JustBrought(s: State, step: Step, x: Event)
    requires Enabled(s, step) && Brings(step, x)
    ensures Held(Do(s, step), x)
  {
  }

  // ----- completion events first -----

  /** Step `n` is the run's last step so far, and with it the run found no completion event queued. */
  ghost predicate LookedAt(steps: seq<Step>, r: Id, n: int)
    requires Executable(steps)
  {
    && 0 <= n < |steps| && steps[n] == OfRun(r, FindNoCompletion)
    && Executable(steps[..n])
    && (forall x :: x in After(steps[..n]).queue ==> !x.completion)
    && forall k :: n < k < |steps| ==> !(steps[k].OfRun? && steps[k].r == r)
  }

  /** A run is about to look in the lane of regular events only when the last thing it did was to
      find no completion event. */
  lemma {:induction false} LooksAfterFinding(steps: seq<Step>, r: Id) returns (n: nat)
    requires Executable(steps) && RunAt(After(steps), r, Looking)
    ensures LookedAt(steps, r, n)
    decreases |steps|
  {
    var front, last := steps[..|steps| - 1], steps[|steps| - 1];
    if last.OfRun? && last.r == r {
      n := |steps| - 1;
    } else {
      StaysLooking(After(front), last, r);
      n := LooksAfterFinding(front, r);
      assert front[..n] == steps[..n];
      assert forall k :: n < k < |steps| ==> if k == |steps| - 1 then steps[k] == last else steps[k] == front[k];
    }
  }

  lemma StaysLooking(s: State, step: Step, r: Id)
    requires Enabled(s, step) && !(step.OfRun? && step.r == r) && RunAt(Do(s, step), r, Looking)
    ensures RunAt(s, r, Looking)
  {
  }

  /** So a regular event is popped only by a run that has just found no completion event queued. */
  lemma RegularOnlyAfter(steps: seq<Step>, r: Id, x: Event, defer: bool) returns (n: nat)
    requires Executable(steps) && RunMay(After(steps), r, Pop(x, defer)) && !x.completion
    ensures LookedAt(steps, r, n)
  {
    n := LooksAfterFinding(steps, r);
  }

  // ----- waiting for signals -----

  /** Step `n` is a run closing the signal. */
  ghost predicate SignalledAt(steps: seq<Step>, signal: nat, n: int)
    requires Executable(steps)
  {
    && 0 <= n < |steps| && steps[n].OfRun? && steps[n].p.Signal?
    && Executable(steps[..n]) && After(steps[..n]).current == signal
  }

  lemma StepCloses(s: State, step: Step, signal: nat)
    requires Enabled(s, step) && signal in Do(s, step).closed
    ensures signal in s.closed || (step.OfRun? && step.p.Signal? && signal == s.current)
  {
    match step
    case OfDispatcher(i, d) => DispatcherCloses(s, i, d);
    case OfRun(r, p) =>
    case OfWorker(k, w) => WorkerClosesNone(s, k, w);
  }

  lemma DispatcherCloses(s: State, i: Event, step: DispatcherStep)
    requires DispatcherMay(s, i, step)
    ensures DispatcherDo(s, i, step).closed == s.closed
  {
  }

  lemma WorkerClosesNone(s: State, k: Id, step: WorkerStep)
    requires WorkerMay(s, k, step)
    ensures WorkerDo(s, k, step).closed == s.closed
  {
  }

  lemma {:induction false} ClosedBySignal(steps: seq<Step>, signal: nat) returns (n: nat)
    requires Executable(steps) && signal in After(steps).closed
    ensures SignalledAt(steps, signal, n)
    decreases |steps|
  {
    hide Do, Enabled;
    assert steps != [] by {
      assert After([]).closed == {};
    }
    var front, last := steps[..|steps| - 1], steps[|steps| - 1];
    StepCloses(After(front), last, signal);
    if last.OfRun? && last.p.Signal? && signal == After(front).current {
      n := |steps| - 1;
    } else {
      n := ClosedBySignal(front, signal);
      assert front[..n] == steps[..n];
    }
  }

  /** A worker stops waiting, for the lock or for its run, only after a run has closed the signal it
      waits on. */
  lemma WorkersWait(steps: seq<Step>, k: Id, step: WorkerStep) returns (n: nat)
    requires Executable(steps) && WorkerMay(After(steps), k, step) && (step.Wake? || step.Drained?)
    ensures var pc := After(steps).workers[k].pc;
            (pc.Waiting? || pc.Draining?) && SignalledAt(steps, pc.on, n)
  {
    n := ClosedBySignal(steps, After(steps).workers[k].pc.on);
  }
}
