/** The processing lock and the drain worker, as atomic steps of unboundedly many dispatchers,
    process runs and drain workers. Nothing here presupposes that runs exclude each other or
    that there is one worker: both are proved. */
module Drain {
  import opened Options

  type Id = nat

  /** An event; `completion` says which of the queue's two lanes it travels in. */
  datatype Event = Event(number: nat, completion: bool)

  /** A dispatcher, from its push to handing its completion to the caller. `Acquired` has won
      the lock but not yet stored the new signal; `Armed` has. */
  datatype Dispatcher = Pushed | Acquired | Armed | Failed | Handed

  datatype RunKind = Opening | Direct(dispatcher: Event) | Batched(worker: Id)

  /** A process run: `Popping` is about to look at the stack of completion events, `Looking` saw
      it empty and is about to look at the other lane, `Handled` has consumed an event. Then it
      found the other lane empty too, pushed the deferred events back, closed its completion,
      closed the signal; unlocking ends it. */
  datatype RunPc = Handled | Popping | Looking | Emptied | Restored | Completed | Signalled

  /** `deferred` is the run's own list of events put aside. */
  datatype Run = Run(kind: RunKind, pc: RunPc, deferred: set<Event>)

  datatype WorkerPc =
    | Waiting(on: nat) | Trying(on: nat) | WorkerAcquired | WorkerArmed | Took
    | Draining(on: nat) | Closing | Finishing

  datatype Worker = Worker(pc: WorkerPc, batch: set<Event>)

  datatype State = State(
    dispatchers: map<Event, Dispatcher>,
    queue: set<Event>,
    popped: set<Event>,
    locked: bool,
    current: nat,
    closed: set<nat>,
    runs: map<Id, Run>,
    scheduled: bool,
    waiters: set<Event>,
    workers: map<Id, Worker>,
    done: set<Event>)

  datatype DispatcherStep = Dispatch | TryLock | Arm | Spawn(r: Id) | Register(k: Id)

  datatype RunStep =
    | Raise(x: Event) | Requeue(x: Event) | Discard(x: Event) | Resume
    | FindNoCompletion | Pop(x: Event, defer: bool) | FindEmpty | Restore | Complete | Signal | Unlock

  datatype WorkerStep =
    | Wake | WorkerTryLock | WorkerArm | Take | WorkerSpawn(r: Id) | Drained | CloseBatch | Finish

  datatype Step =
    | OfDispatcher(i: Event, d: DispatcherStep) | OfRun(r: Id, p: RunStep) | OfWorker(k: Id, w: WorkerStep)

  predicate At(s: State, i: Event, pc: Dispatcher) {
    i in s.dispatchers && s.dispatchers[i] == pc
  }

  predicate RunAt(s: State, r: Id, pc: RunPc) {
    r in s.runs && s.runs[r].pc == pc
  }

  predicate WorkerAt(s: State, k: Id, pc: WorkerPc) {
    k in s.workers && s.workers[k].pc == pc
  }

  /** An event nobody has queued before. */
  predicate Fresh(s: State, x: Event) {
    x !in s.dispatchers && x !in s.queue && x !in s.popped
  }

  predicate DispatcherMay(s: State, i: Event, step: DispatcherStep) {
    match step
    case Dispatch => Fresh(s, i)
    case TryLock => At(s, i, Pushed)
    case Arm => At(s, i, Acquired)
    case Spawn(r) => At(s, i, Armed) && r !in s.runs
    case Register(k) => At(s, i, Failed) && k !in s.workers
  }

  predicate RunMay(s: State, r: Id, step: RunStep) {
    match step
    case Raise(x) => RunAt(s, r, Handled) && Fresh(s, x)
    case Requeue(x) => (RunAt(s, r, Handled) || RunAt(s, r, Emptied)) && x in s.runs[r].deferred
    case Discard(x) => RunAt(s, r, Handled) && x in s.runs[r].deferred
    case Resume => RunAt(s, r, Handled)
    case FindNoCompletion => RunAt(s, r, Popping) && forall x :: x in s.queue ==> !x.completion
    case Pop(x, _) => RunAt(s, r, if x.completion then Popping else Looking) && x in s.queue
    case FindEmpty => RunAt(s, r, Looking) && forall x :: x in s.queue ==> x.completion
    case Restore => RunAt(s, r, Emptied) && s.runs[r].deferred == {}
    case Complete => RunAt(s, r, Restored)
    case Signal => RunAt(s, r, Completed)
    case Unlock => RunAt(s, r, Signalled)
  }

  predicate WorkerMay(s: State, k: Id, step: WorkerStep) {
    && k in s.workers
    && match step
       case Wake => s.workers[k].pc.Waiting? && s.workers[k].pc.on in s.closed
       case WorkerTryLock => s.workers[k].pc.Trying?
       case WorkerArm => s.workers[k].pc == WorkerAcquired
       case Take => s.workers[k].pc == WorkerArmed
       case WorkerSpawn(r) => s.workers[k].pc == Took && r !in s.runs
       case Drained => s.workers[k].pc.Draining? && s.workers[k].pc.on in s.closed
       case CloseBatch => s.workers[k].pc == Closing
       case Finish => s.workers[k].pc == Finishing
  }

  predicate Enabled(s: State, step: Step) {
    match step
    case OfDispatcher(i, d) => DispatcherMay(s, i, d)
    case OfRun(r, p) => RunMay(s, r, p)
    case OfWorker(k, w) => WorkerMay(s, k, w)
  }

  function DispatcherDo(s: State, i: Event, step: DispatcherStep): State
    requires DispatcherMay(s, i, step)
  {
    match step
    case Dispatch => s.(dispatchers := s.dispatchers[i := Pushed], queue := s.queue + {i})
    case TryLock =>
      if s.locked then s.(dispatchers := s.dispatchers[i := Failed])
      else s.(dispatchers := s.dispatchers[i := Acquired], locked := true)
    case Arm => s.(dispatchers := s.dispatchers[i := Armed], current := s.current + 1)
    case Spawn(r) =>
      s.(dispatchers := s.dispatchers[i := Handed], runs := s.runs[r := Run(Direct(i), Popping, {})])
    case Register(k) =>
      var s' := s.(dispatchers := s.dispatchers[i := Handed], waiters := s.waiters + {i});
      if s.scheduled then s'
      else s'.(scheduled := true, workers := s.workers[k := Worker(Waiting(s.current), {})])
  }

  function RunDo(s: State, r: Id, step: RunStep): State
    requires RunMay(s, r, step)
  {
    var run := s.runs[r];
    match step
    case Raise(x) => s.(queue := s.queue + {x})
    case Requeue(x) => s.(runs := s.runs[r := run.(deferred := run.deferred - {x})], queue := s.queue + {x})
    case Discard(x) => s.(runs := s.runs[r := run.(deferred := run.deferred - {x})])
    case Resume => s.(runs := s.runs[r := run.(pc := Popping)])
    case FindNoCompletion => s.(runs := s.runs[r := run.(pc := Looking)])
    case Pop(x, defer) =>
      var run' := if defer then Run(run.kind, Popping, run.deferred + {x}) else run.(pc := Handled);
      s.(runs := s.runs[r := run'], queue := s.queue - {x}, popped := s.popped + {x})
    case FindEmpty => s.(runs := s.runs[r := run.(pc := Emptied)])
    case Restore => s.(runs := s.runs[r := run.(pc := Restored)])
    case Complete =>
      s.(runs := s.runs[r := run.(pc := Completed)],
         done := if run.kind.Direct? then s.done + {run.kind.dispatcher} else s.done)
    case Signal => s.(runs := s.runs[r := run.(pc := Signalled)], closed := s.closed + {s.current})
    case Unlock => s.(runs := s.runs - {r}, locked := false)
  }

  function WorkerDo(s: State, k: Id, step: WorkerStep): State
    requires WorkerMay(s, k, step)
  {
    var w := s.workers[k];
    match step
    case Wake => s.(workers := s.workers[k := w.(pc := Trying(w.pc.on))])
    case WorkerTryLock =>
      if s.locked then s.(workers := s.workers[k := w.(pc := Trying(s.current))])
      else s.(workers := s.workers[k := w.(pc := WorkerAcquired)], locked := true)
    case WorkerArm => s.(workers := s.workers[k := w.(pc := WorkerArmed)], current := s.current + 1)
    case Take => s.(workers := s.workers[k := Worker(Took, s.waiters)], waiters := {})
    case WorkerSpawn(r) =>
      s.(workers := s.workers[k := w.(pc := Draining(s.current))], runs := s.runs[r := Run(Batched(k), Popping, {})])
    case Drained => s.(workers := s.workers[k := w.(pc := Closing)])
    case CloseBatch => s.(workers := s.workers[k := Worker(Finishing, {})], done := s.done + w.batch)
    case Finish =>
      if s.waiters == {} then s.(workers := s.workers - {k}, scheduled := false)
      else s.(workers := s.workers[k := w.(pc := Waiting(s.current))])
  }

  function Do(s: State, step: Step): State
    requires Enabled(s, step)
  {
    match step
    case OfDispatcher(i, d) => DispatcherDo(s, i, d)
    case OfRun(r, p) => RunDo(s, r, p)
    case OfWorker(k, w) => WorkerDo(s, k, w)
  }

  /** The start of the machine holds the lock; its initial transition is an event consumed by
      the first process run. */
  function Init(): State {
    State(map[], {}, {}, true, 0, {}, map[0 := Run(Opening, Handled, {})], false, {}, map[], {})
  }

  /** The steps can be taken one after the other from the start. */
  predicate Executable(steps: seq<Step>)
    decreases |steps|, 0
  {
    steps == [] || (Executable(steps[..|steps| - 1]) && Enabled(After(steps[..|steps| - 1]), steps[|steps| - 1]))
  }

  function After(steps: seq<Step>): State
    requires Executable(steps)
    decreases |steps|, 1
  {
    if steps == [] then Init() else Do(After(steps[..|steps| - 1]), steps[|steps| - 1])
  }

  // ----- the invariant -----

  datatype Actor = ByDispatcher(i: Event) | ByRun(r: Id) | ByWorker(k: Id)

  predicate Holds(s: State, h: Actor) {
    match h
    case ByDispatcher(i) => At(s, i, Acquired) || At(s, i, Armed)
    case ByRun(r) => r in s.runs
    case ByWorker(k) => WorkerAt(s, k, WorkerAcquired) || WorkerAt(s, k, WorkerArmed) || WorkerAt(s, k, Took)
  }

  /** The holder has stored a signal that it, or the run it spawns, will close. */
  predicate HoldsOpenSignal(s: State, h: Actor) {
    match h
    case ByDispatcher(i) => At(s, i, Armed)
    case ByRun(r) => r in s.runs && s.runs[r].pc != Signalled
    case ByWorker(k) => WorkerAt(s, k, WorkerArmed) || WorkerAt(s, k, Took)
  }

  /** `h` is the one holder of the lock; every signal before the current one is closed, and the
      current one is open exactly while the holder has yet to close it. */
  ghost predicate LockedBy(s: State, h: Option<Actor>) {
    && s.locked == h.Some?
    && (forall o: Actor :: Holds(s, o) <==> h == Some(o))
    && (forall d: nat :: d in s.closed <==>
          d < s.current || (d == s.current && (h.None? || !HoldsOpenSignal(s, h.value))))
  }

  ghost predicate LockInv(s: State) {
    exists h :: LockedBy(s, h)
  }

  ghost predicate WorkerInv(s: State) {
    && (forall k1, k2 :: k1 in s.workers && k2 in s.workers ==> k1 == k2)
    && (s.scheduled <==> exists k :: k in s.workers)
    && (s.waiters != {} ==> s.scheduled)
    && (forall k ::
          k in s.workers && (s.workers[k].pc.Waiting? || s.workers[k].pc.Trying? || s.workers[k].pc.Draining?) ==>
          s.workers[k].pc.on <= s.current)
  }

  /** The run has yet to look at the lane of event `i`. */
  predicate WillSee(run: Run, i: Event) {
    match run.pc
    case Handled => true
    case Popping => true
    case Looking => !i.completion
    case _ => false
  }

  predicate Serves(s: State, r: Id, i: Event) {
    r in s.runs && WillSee(s.runs[r], i)
  }

  /** Who will see to it that `i`'s event is popped. */
  ghost predicate WillBePopped(s: State, i: Event) {
    || (exists r :: Serves(s, r, i))
    || (i in s.dispatchers && s.dispatchers[i] != Handed)
    || i in s.waiters
    || exists k :: WorkerAt(s, k, Took) && i in s.workers[k].batch
  }

  ghost predicate EventInv(s: State) {
    && (forall r :: r in s.runs ==> s.runs[r].deferred <= s.popped)
    && (forall i :: i in s.dispatchers ==> i in s.queue || i in s.popped)
    && (forall x :: x in s.queue && x !in s.popped ==> WillBePopped(s, x))
  }

  predicate ClosesFor(s: State, r: Id, i: Event) {
    r in s.runs && s.runs[r].kind == Direct(i) && !s.runs[r].pc.Completed? && !s.runs[r].pc.Signalled?
  }

  /** Who will close the completion handed to dispatcher `i`. */
  ghost predicate WillBeClosed(s: State, i: Event) {
    || i in s.waiters
    || (exists k :: k in s.workers && i in s.workers[k].batch)
    || exists r :: ClosesFor(s, r, i)
  }

  /** Run `r` of worker `k` has yet to look at the lanes of the batch's events not popped so far. */
  ghost predicate PopsFor(s: State, r: Id, k: Id) {
    && r in s.runs && s.runs[r].kind == Batched(k)
    && (s.runs[r].pc.Handled? || s.runs[r].pc.Popping? || s.runs[r].pc.Looking?)
    && k in s.workers && forall i :: i in s.workers[k].batch && i !in s.popped ==> WillSee(s.runs[r], i)
  }

  /** A worker closes its batch only after the run it waited for has emptied the queue. */
  ghost predicate BatchInv(s: State, k: Id)
    requires k in s.workers
  {
    var w := s.workers[k];
    match w.pc
    case Took => true
    case Draining(d) => w.batch <= s.popped || (d == s.current && exists r :: PopsFor(s, r, k))
    case Closing => w.batch <= s.popped
    case _ => w.batch == {}
  }

  ghost predicate CompletionInv(s: State) {
    && s.done <= s.popped
    && s.waiters <= s.dispatchers.Keys
    && (forall i :: At(s, i, Handed) && i !in s.done ==> WillBeClosed(s, i))
    && (forall r :: r in s.runs && s.runs[r].kind.Direct? ==>
          && s.runs[r].kind.dispatcher in s.dispatchers
          && (s.runs[r].kind.dispatcher in s.popped || WillSee(s.runs[r], s.runs[r].kind.dispatcher)))
    && (forall k :: k in s.workers ==> s.workers[k].batch <= s.dispatchers.Keys && BatchInv(s, k))
  }

  ghost predicate Inv(s: State) {
    LockInv(s) && WorkerInv(s) && EventInv(s) && CompletionInv(s)
  }

  lemma InitInv()
    ensures Inv(Init())
  {
    assert LockedBy(Init(), Some(ByRun(0)));
  }

  // ----- every step keeps it -----

  /** A step that moves nobody into or out of holding the lock, and leaves the signal alone. */
  lemma LockUntouched(s: State, s': State, h: Option<Actor>)
    requires LockedBy(s, h)
    requires s'.locked == s.locked && s'.current == s.current && s'.closed == s.closed
    requires forall o: Actor :: Holds(s', o) == Holds(s, o)
    requires h.Some? ==> HoldsOpenSignal(s', h.value) == HoldsOpenSignal(s, h.value)
    ensures LockInv(s')
  {
    assert LockedBy(s', h);
  }

  lemma DispatcherKeepsLock(s: State, i: Event, step: DispatcherStep, h: Option<Actor>)
    requires LockedBy(s, h) && DispatcherMay(s, i, step)
    ensures LockInv(DispatcherDo(s, i, step))
  {
    var s' := DispatcherDo(s, i, step);
    match step
    case Dispatch => LockUntouched(s, s', h);
    case TryLock =>
      if s.locked {
        LockUntouched(s, s', h);
      } else {
        assert LockedBy(s', Some(ByDispatcher(i)));
      }
    case Arm => assert Holds(s, ByDispatcher(i)); assert LockedBy(s', h);
    case Spawn(r) => assert Holds(s, ByDispatcher(i)); assert LockedBy(s', Some(ByRun(r)));
    case Register(k) => LockUntouched(s, s', h);
  }

  lemma RunKeepsLock(s: State, r: Id, step: RunStep, h: Option<Actor>)
    requires LockedBy(s, h) && RunMay(s, r, step)
    ensures LockInv(RunDo(s, r, step))
  {
    var s' := RunDo(s, r, step);
    assert Holds(s, ByRun(r));
    assert LockedBy(s', if step.Unlock? then None else h);
  }

  lemma WorkerKeepsLock(s: State, k: Id, step: WorkerStep, h: Option<Actor>)
    requires LockedBy(s, h) && WorkerMay(s, k, step)
    ensures LockInv(WorkerDo(s, k, step))
  {
    var s' := WorkerDo(s, k, step);
    match step
    case WorkerTryLock =>
      if s.locked {
        LockUntouched(s, s', h);
      } else {
        assert LockedBy(s', Some(ByWorker(k)));
      }
    case WorkerArm => assert Holds(s, ByWorker(k)); assert LockedBy(s', h);
    case WorkerSpawn(r) => assert Holds(s, ByWorker(k)); assert LockedBy(s', Some(ByRun(r)));
    case _ => WorkerLeavesLock(s, k, step, h);
  }

  lemma WorkerLeavesLock(s: State, k: Id, step: WorkerStep, h: Option<Actor>)
    requires LockedBy(s, h) && WorkerMay(s, k, step)
    requires step.Wake? || step.Take? || step.Drained? || step.CloseBatch? || step.Finish?
    ensures LockInv(WorkerDo(s, k, step))
  {
    assert step.Take? ==> Holds(s, ByWorker(k));
    LockUntouched(s, WorkerDo(s, k, step), h);
  }

  lemma DispatcherKeepsWorker(s: State, i: Event, step: DispatcherStep)
    requires WorkerInv(s) && DispatcherMay(s, i, step)
    ensures WorkerInv(DispatcherDo(s, i, step))
  {
    if step.Register? {
      if s.scheduled {
        var k :| k in s.workers;
      } else {
        assert step.k in DispatcherDo(s, i, step).workers;
      }
    }
  }

  lemma RunKeepsWorker(s: State, r: Id, step: RunStep)
    requires WorkerInv(s) && RunMay(s, r, step)
    ensures WorkerInv(RunDo(s, r, step))
  {
    if k :| k in s.workers {
      assert k in RunDo(s, r, step).workers;
    }
  }

  lemma WorkerKeepsWorker(s: State, k: Id, step: WorkerStep)
    requires WorkerInv(s) && WorkerMay(s, k, step)
    ensures WorkerInv(WorkerDo(s, k, step))
  {
    if !(step.Finish? && s.waiters == {}) {
      assert k in WorkerDo(s, k, step).workers;
    }
  }

  lemma DispatcherKeepsEvents(s: State, i: Event, step: DispatcherStep)
    requires EventInv(s) && DispatcherMay(s, i, step)
    ensures EventInv(DispatcherDo(s, i, step))
  {
    var s' := DispatcherDo(s, i, step);
    forall x | x in s'.queue && x !in s'.popped
      ensures WillBePopped(s', x)
    {
      if x in s.queue {
        if r :| Serves(s, r, x) {
          assert Serves(s', r, x);
        } else if k :| WorkerAt(s, k, Took) && x in s.workers[k].batch {
          assert WorkerAt(s', k, Took);
        } else if step.Spawn? {
          assert Serves(s', step.r, x);
        }
      }
    }
  }

  lemma RunKeepsEvents(s: State, r: Id, step: RunStep)
    requires EventInv(s) && RunMay(s, r, step)
    ensures EventInv(RunDo(s, r, step))
  {
    var s' := RunDo(s, r, step);
    forall x | x in s'.queue && x !in s'.popped
      ensures WillBePopped(s', x)
    {
      if step.Raise? {
        assert Serves(s', r, x);
      } else if q :| Serves(s, q, x) {
        assert Serves(s', q, x);
      } else if k :| WorkerAt(s, k, Took) && x in s.workers[k].batch {
        assert WorkerAt(s', k, Took);
      }
    }
  }

  lemma WorkerKeepsEvents(s: State, k: Id, step: WorkerStep)
    requires EventInv(s) && WorkerMay(s, k, step)
    ensures EventInv(WorkerDo(s, k, step))
  {
    var s' := WorkerDo(s, k, step);
    forall x | x in s'.queue && x !in s'.popped
      ensures WillBePopped(s', x)
    {
      if step.WorkerSpawn? {
        assert Serves(s', step.r, x);
      } else if r :| Serves(s, r, x) {
        assert Serves(s', r, x);
      } else if q :| WorkerAt(s, q, Took) && x in s.workers[q].batch {
        assert WorkerAt(s', q, Took);
      } else if step.Take? {
        assert WorkerAt(s', k, Took);
      }
    }
  }

  lemma DispatcherKeepsHanded(s: State, i: Event, step: DispatcherStep, j: Event)
    requires CompletionInv(s) && DispatcherMay(s, i, step)
    requires At(DispatcherDo(s, i, step), j, Handed) && j !in s.done
    ensures WillBeClosed(DispatcherDo(s, i, step), j)
  {
    var s' := DispatcherDo(s, i, step);
    if j == i {
      if step.Spawn? {
        assert ClosesFor(s', step.r, i);
      }
    } else if k :| k in s.workers && j in s.workers[k].batch {
      assert k in s'.workers;
    } else if r :| ClosesFor(s, r, j) {
      assert ClosesFor(s', r, j);
    }
  }

  lemma DispatcherKeepsBatch(s: State, i: Event, step: DispatcherStep, h: Option<Actor>, k: Id)
    requires LockedBy(s, h) && DispatcherMay(s, i, step) && k in s.workers && BatchInv(s, k)
    ensures BatchInv(DispatcherDo(s, i, step), k)
  {
    if r :| PopsFor(s, r, k) {
      assert Holds(s, ByRun(r));
      assert step.Arm? ==> Holds(s, ByDispatcher(i));
      assert PopsFor(DispatcherDo(s, i, step), r, k);
    }
  }

  lemma DispatcherKeepsCompletions(s: State, i: Event, step: DispatcherStep)
    requires Inv(s) && DispatcherMay(s, i, step)
    ensures CompletionInv(DispatcherDo(s, i, step))
  {
    hide BatchInv, WillBeClosed;
    var s' := DispatcherDo(s, i, step);
    var h :| LockedBy(s, h);
    forall j | At(s', j, Handed) && j !in s'.done
      ensures WillBeClosed(s', j)
    {
      DispatcherKeepsHanded(s, i, step, j);
    }
    forall k | k in s'.workers
      ensures BatchInv(s', k)
    {
      if k in s.workers {
        DispatcherKeepsBatch(s, i, step, h, k);
      } else {
        NewWorkerIsIdle(s, i, step, k);
      }
    }
  }

  lemma NewWorkerIsIdle(s: State, i: Event, step: DispatcherStep, k: Id)
    requires DispatcherMay(s, i, step) && k !in s.workers && k in DispatcherDo(s, i, step).workers
    ensures BatchInv(DispatcherDo(s, i, step), k)
  {
  }

  lemma RunKeepsHanded(s: State, r: Id, step: RunStep, j: Event)
    requires CompletionInv(s) && RunMay(s, r, step)
    requires At(s, j, Handed) && j !in RunDo(s, r, step).done
    ensures WillBeClosed(RunDo(s, r, step), j)
  {
    var s' := RunDo(s, r, step);
    if k :| k in s.workers && j in s.workers[k].batch {
      assert k in s'.workers;
    } else if q :| ClosesFor(s, q, j) {
      assert ClosesFor(s', q, j);
    }
  }

  lemma RunKeepsBatch(s: State, r: Id, step: RunStep, k: Id)
    requires EventInv(s) && RunMay(s, r, step) && k in s.workers && BatchInv(s, k)
    requires s.workers[k].batch <= s.dispatchers.Keys
    ensures BatchInv(RunDo(s, r, step), k)
  {
    if q :| PopsFor(s, q, k) {
      if step.FindEmpty? && q == r {
        assert s.workers[k].batch <= s.popped;
      } else {
        assert PopsFor(RunDo(s, r, step), q, k);
      }
    }
  }

  lemma RunKeepsCompletions(s: State, r: Id, step: RunStep)
    requires Inv(s) && RunMay(s, r, step)
    ensures CompletionInv(RunDo(s, r, step))
  {
    hide BatchInv, WillBeClosed;
    var s' := RunDo(s, r, step);
    forall j | At(s', j, Handed) && j !in s'.done
      ensures WillBeClosed(s', j)
    {
      RunKeepsHanded(s, r, step, j);
    }
    forall k | k in s'.workers
      ensures BatchInv(s', k)
    {
      RunKeepsBatch(s, r, step, k);
    }
  }

  lemma WorkerKeepsHanded(s: State, k: Id, step: WorkerStep, j: Event)
    requires WorkerMay(s, k, step) && BatchInv(s, k) && WillBeClosed(s, j)
    requires j !in WorkerDo(s, k, step).done
    ensures WillBeClosed(WorkerDo(s, k, step), j)
  {
    hide PopsFor;
    var s' := WorkerDo(s, k, step);
    if j in s.waiters {
      assert step.Take? ==> j in s'.workers[k].batch;
    } else if q :| q in s.workers && j in s.workers[q].batch {
      assert q in s'.workers && j in s'.workers[q].batch;
    } else if r :| ClosesFor(s, r, j) {
      assert ClosesFor(s', r, j);
    }
  }

  /** The signal a worker waits on after spawning its run is closed only once that run has
      found the queue empty. */
  lemma WorkerKeepsBatch(s: State, k: Id, step: WorkerStep, h: Option<Actor>, q: Id)
    requires LockedBy(s, h) && WorkerInv(s) && WorkerMay(s, k, step)
    requires q in WorkerDo(s, k, step).workers && BatchInv(s, q)
    ensures BatchInv(WorkerDo(s, k, step), q)
  {
    assert q == k;
    if step.WorkerSpawn? {
      assert PopsFor(WorkerDo(s, k, step), step.r, k);
    } else if r :| PopsFor(s, r, k) {
      assert Holds(s, ByRun(r));
    }
  }

  lemma WorkerKeepsCompletions(s: State, k: Id, step: WorkerStep)
    requires Inv(s) && WorkerMay(s, k, step)
    ensures CompletionInv(WorkerDo(s, k, step))
  {
    assert BatchInv(s, k);
    var s' := WorkerDo(s, k, step);
    var h :| LockedBy(s, h);
    hide BatchInv, WillBeClosed, LockedBy, LockInv, EventInv, WillSee;
    forall j | At(s', j, Handed) && j !in s'.done
      ensures WillBeClosed(s', j)
    {
      WorkerKeepsHanded(s, k, step, j);
    }
    forall q | q in s'.workers
      ensures BatchInv(s', q)
    {
      WorkerKeepsBatch(s, k, step, h, q);
    }
  }

  lemma StepKeepsInv(s: State, step: Step)
    requires Inv(s) && Enabled(s, step)
    ensures Inv(Do(s, step))
  {
    hide LockedBy, WorkerInv, EventInv, CompletionInv;
    var h :| LockedBy(s, h);
    match step
    case OfDispatcher(i, d) =>
      DispatcherKeepsLock(s, i, d, h);
      DispatcherKeepsWorker(s, i, d);
      DispatcherKeepsEvents(s, i, d);
      DispatcherKeepsCompletions(s, i, d);
    case OfRun(r, p) =>
      RunKeepsLock(s, r, p, h);
      RunKeepsWorker(s, r, p);
      RunKeepsEvents(s, r, p);
      RunKeepsCompletions(s, r, p);
    case OfWorker(k, w) =>
      WorkerKeepsLock(s, k, w, h);
      WorkerKeepsWorker(s, k, w);
      WorkerKeepsEvents(s, k, w);
      WorkerKeepsCompletions(s, k, w);
  }

  // ----- what holds after every interleaving -----

  lemma {:induction false} InvAlways(steps: seq<Step>)
    requires Executable(steps)
    ensures Inv(After(steps))
    decreases |steps|
  {
    hide Inv;
    if steps == [] {
      InitInv();
    } else {
      InvAlways(steps[..|steps| - 1]);
      StepKeepsInv(After(steps[..|steps| - 1]), steps[|steps| - 1]);
    }
  }

  /** At most one process run is active, and while one is nobody else has the lock. */
  lemma MutualExclusion(steps: seq<Step>, r: Id)
    requires Executable(steps) && r in After(steps).runs
    ensures After(steps).runs.Keys == {r} && After(steps).locked
    ensures forall i :: !At(After(steps), i, Acquired) && !At(After(steps), i, Armed)
    ensures forall k ::
      && !WorkerAt(After(steps), k, WorkerAcquired) && !WorkerAt(After(steps), k, WorkerArmed)
      && !WorkerAt(After(steps), k, Took)
  {
    var s := After(steps);
    InvAlways(steps);
    assert Holds(s, ByRun(r));
    forall q | q in s.runs
      ensures q == r
    {
      assert Holds(s, ByRun(q));
    }
    forall i
      ensures !At(s, i, Acquired) && !At(s, i, Armed)
    {
      assert !Holds(s, ByDispatcher(i));
    }
    forall k
      ensures !WorkerAt(s, k, WorkerAcquired) && !WorkerAt(s, k, WorkerArmed) && !WorkerAt(s, k, Took)
    {
      assert !Holds(s, ByWorker(k));
    }
  }

  /** `scheduled` says exactly whether the one drain worker is alive, and nobody waits without it. */
  lemma OneWorker(steps: seq<Step>)
    requires Executable(steps)
    ensures After(steps).scheduled <==> exists k :: After(steps).workers.Keys == {k}
    ensures !After(steps).scheduled ==> After(steps).workers == map[] && After(steps).waiters == {}
  {
    var s := After(steps);
    InvAlways(steps);
    if k :| k in s.workers {
      assert s.workers.Keys == {k};
    }
  }

  /** A completion is closed only after its event was popped, on the direct and on the batched path. */
  lemma CompletionSound(steps: seq<Step>, i: Event)
    requires Executable(steps) && i in After(steps).done
    ensures i in After(steps).popped
  {
    InvAlways(steps);
  }

  /** Nobody is in the middle of anything. */
  predicate Quiescent(s: State) {
    (forall i :: i in s.dispatchers ==> s.dispatchers[i] == Handed) && s.runs == map[] && s.workers == map[]
  }

  lemma QuiescentIsDone(s: State)
    requires Inv(s) && Quiescent(s)
    ensures s.dispatchers.Keys <= s.done && s.queue <= s.popped
    ensures !s.locked && !s.scheduled && s.waiters == {}
  {
    forall i | i in s.dispatchers
      ensures i in s.done
    {
      assert At(s, i, Handed);
    }
  }

  /** No lost wake-up: once everybody is done, every completion handed out is closed, every
      event was popped, and the lock and the drain are free for the next dispatch. */
  lemma NoLostWakeup(steps: seq<Step>)
    requires Executable(steps) && Quiescent(After(steps))
    ensures After(steps).dispatchers.Keys <= After(steps).done
    ensures After(steps).queue <= After(steps).popped
    ensures !After(steps).locked && !After(steps).scheduled && After(steps).waiters == {}
  {
    InvAlways(steps);
    QuiescentIsDone(After(steps));
  }
}
