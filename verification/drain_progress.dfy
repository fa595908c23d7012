/** Progress of the drain protocol: no deadlock, no livelock, and under every fair schedule the
    work runs out. The one thing that may go round in circles is a worker's failed attempt at a
    lock somebody else holds. */
module DrainProgress {
  import opened Options
  import opened Drain

  predicate BringsEvent(step: Step) {
    (step.OfDispatcher? && step.d.Dispatch?) || (step.OfRun? && step.p.Raise?)
  }

  predicate Spins(s: State, step: Step) {
    step.OfWorker? && step.w.WorkerTryLock? && s.locked
  }

  /** The steps that get somewhere: not a new event, and not a worker's failed attempt at the lock. */
  predicate Advances(s: State, step: Step) {
    Enabled(s, step) && !BringsEvent(step) && !Spins(s, step)
  }

  // ----- how much is left to do -----

  /** Compared lexicographically: what the dispatchers, the worker and the run have left to do;
      within the run, the events neither consumed nor discarded, and the steps until one of them is. */
  datatype Left = Left(dispatchers: nat, worker: nat, run: nat, events: nat, within: nat)

  predicate Less(a: Left, b: Left) {
    || a.dispatchers < b.dispatchers
    || (a.dispatchers == b.dispatchers &&
        (|| a.worker < b.worker
         || (a.worker == b.worker &&
             (|| a.run < b.run
              || (a.run == b.run && (a.events < b.events || (a.events == b.events && a.within < b.within)))))))
  }

  function InPc(ds: map<Event, Dispatcher>, pc: Dispatcher): set<Event> {
    set i | i in ds && ds[i] == pc
  }

  /** At least as many steps as the dispatchers have left. */
  function DispatcherRank(ds: map<Event, Dispatcher>): nat {
    4 * |InPc(ds, Pushed)| + 3 * |InPc(ds, Acquired)| + 2 * |InPc(ds, Armed)| + |InPc(ds, Failed)|
  }

  function StepsLeft(pc: Dispatcher): nat {
    match pc
    case Pushed => 4
    case Acquired => 3
    case Armed => 2
    case Failed => 1
    case Handed => 0
  }

  /** How many steps a worker has left; past taking its batch, later waiters cost another round. */
  function PcRank(pc: WorkerPc, waiting: bool): nat {
    match pc
    case Waiting(_) => 8
    case Trying(_) => 7
    case WorkerAcquired => 6
    case WorkerArmed => 5
    case Took => if waiting then 12 else 4
    case Draining(_) => if waiting then 11 else 3
    case Closing => if waiting then 10 else 2
    case Finishing => if waiting then 9 else 1
  }

  ghost function WorkerRank(ws: map<Id, Worker>, waiters: set<Event>): nat {
    if k :| k in ws then PcRank(ws[k].pc, waiters != {}) else 0
  }

  function RunPcRank(pc: RunPc): nat {
    match pc
    case Handled => 5
    case Popping => 5
    case Looking => 5
    case Emptied => 4
    case Restored => 3
    case Completed => 2
    case Signalled => 1
  }

  /** Between two consumed events at most every deferred event is pushed back, and then every
      queued one popped and deferred, each after looking at both lanes. */
  function Within(run: Run, queue: set<Event>): nat {
    match run.pc
    case Handled => 2 * |queue| + 3 * |run.deferred| + 2
    case Popping => 2 * |queue| + 1
    case Looking => 2 * |queue|
    case _ => |run.deferred|
  }

  ghost function TheRun(rs: map<Id, Run>): Option<Run> {
    if r :| r in rs then Some(rs[r]) else None
  }

  ghost function LeftOf(s: State): Left {
    var d, w := DispatcherRank(s.dispatchers), WorkerRank(s.workers, s.waiters);
    match TheRun(s.runs)
    case None => Left(d, w, 0, 0, 0)
    case Some(run) => Left(d, w, RunPcRank(run.pc), |s.queue| + |run.deferred|, Within(run, s.queue))
  }

  // ----- every step that gets somewhere lowers it -----

  lemma InPcMoves(ds: map<Event, Dispatcher>, i: Event, pc: Dispatcher, other: Dispatcher)
    requires i in ds && ds[i] != pc
    ensures |InPc(ds[i := pc], other)|
         == |InPc(ds, other)| + (if other == pc then 1 else 0) - (if other == ds[i] then 1 else 0)
  {
    if other == pc {
      assert InPc(ds[i := pc], other) == InPc(ds, other) + {i} && i !in InPc(ds, other);
    } else if other == ds[i] {
      assert InPc(ds[i := pc], other) == InPc(ds, other) - {i} && i in InPc(ds, other);
    } else {
      assert InPc(ds[i := pc], other) == InPc(ds, other);
    }
  }

  lemma MovesOn(ds: map<Event, Dispatcher>, i: Event, pc: Dispatcher)
    requires i in ds && StepsLeft(pc) < StepsLeft(ds[i])
    ensures DispatcherRank(ds[i := pc]) < DispatcherRank(ds)
  {
    forall other: Dispatcher
      ensures |InPc(ds[i := pc], other)|
           == |InPc(ds, other)| + (if other == pc then 1 else 0) - (if other == ds[i] then 1 else 0)
    {
      InPcMoves(ds, i, pc, other);
    }
    hide InPc;
  }

  lemma DispatcherDescends(s: State, i: Event, step: DispatcherStep)
    requires DispatcherMay(s, i, step) && !step.Dispatch?
    ensures Less(LeftOf(DispatcherDo(s, i, step)), LeftOf(s))
  {
    var s' := DispatcherDo(s, i, step);
    assert StepsLeft(s'.dispatchers[i]) < StepsLeft(s.dispatchers[i]);
    assert s'.dispatchers == s.dispatchers[i := s'.dispatchers[i]];
    MovesOn(s.dispatchers, i, s'.dispatchers[i]);
    hide DispatcherRank, WorkerRank, DispatcherMay, DispatcherDo;
  }

  lemma OneRun(rs: map<Id, Run>, r: Id)
    ensures rs.Keys == {r} ==> TheRun(rs) == Some(rs[r])
    ensures rs.Keys == {} ==> TheRun(rs) == None
  {
    if rs.Keys == {r} {
      assert forall q :: q in rs ==> q == r;
      assert r in rs;
    }
  }

  /** What is left for the run itself. */
  predicate LessForRun(run': Run, queue': set<Event>, run: Run, queue: set<Event>) {
    || RunPcRank(run'.pc) < RunPcRank(run.pc)
    || (RunPcRank(run'.pc) == RunPcRank(run.pc) &&
        var e', e := |queue'| + |run'.deferred|, |queue| + |run.deferred|;
        e' < e || (e' == e && Within(run', queue') < Within(run, queue)))
  }

  lemma PopLowers(s: State, r: Id, x: Event, defer: bool)
    requires RunMay(s, r, Pop(x, defer))
    ensures LessForRun(RunDo(s, r, Pop(x, defer)).runs[r], s.queue - {x}, s.runs[r], s.queue)
  {
    assert |s.queue - {x}| == |s.queue| - 1;
    assert |s.runs[r].deferred + {x}| <= |s.runs[r].deferred| + 1;
  }

  lemma PutBackLowers(s: State, r: Id, step: RunStep)
    requires RunMay(s, r, step) && (step.Requeue? || step.Discard?)
    ensures LessForRun(RunDo(s, r, step).runs[r], RunDo(s, r, step).queue, s.runs[r], s.queue)
  {
    assert |s.queue + {step.x}| <= |s.queue| + 1;
    assert |s.runs[r].deferred - {step.x}| == |s.runs[r].deferred| - 1;
  }

  lemma RunMovesOn(s: State, r: Id, step: RunStep)
    requires RunMay(s, r, step) && !step.Raise? && !step.Unlock?
    ensures r in RunDo(s, r, step).runs
    ensures LessForRun(RunDo(s, r, step).runs[r], RunDo(s, r, step).queue, s.runs[r], s.queue)
  {
    match step
    case Pop(x, defer) => PopLowers(s, r, x, defer);
    case Requeue(x) => PutBackLowers(s, r, step);
    case Discard(x) => PutBackLowers(s, r, step);
    case _ =>
  }

  /** Only the run has changed, and it has less left or has ended. */
  lemma LessInAll(s: State, s': State, r: Id)
    requires s'.dispatchers == s.dispatchers && s'.workers == s.workers && s'.waiters == s.waiters
    requires s.runs.Keys == {r} && r in s.runs
    requires
      if s'.runs.Keys == {} then true
      else s'.runs.Keys == {r} && r in s'.runs && LessForRun(s'.runs[r], s'.queue, s.runs[r], s.queue)
    ensures Less(LeftOf(s'), LeftOf(s))
  {
    hide DispatcherRank, WorkerRank, Within, TheRun;
    OneRun(s.runs, r);
    OneRun(s'.runs, r);
  }

  lemma RunDescends(s: State, r: Id, step: RunStep)
    requires s.runs.Keys == {r} && RunMay(s, r, step) && !step.Raise?
    ensures Less(LeftOf(RunDo(s, r, step)), LeftOf(s))
  {
    hide Less, LeftOf, LessForRun, RunDo, RunMay;
    RunFrame(s, r, step);
    if !step.Unlock? {
      RunMovesOn(s, r, step);
    }
    LessInAll(s, RunDo(s, r, step), r);
  }

  /** A step of the one run leaves dispatchers and worker alone, and the run too unless it unlocks. */
  lemma RunFrame(s: State, r: Id, step: RunStep)
    requires s.runs.Keys == {r} && RunMay(s, r, step)
    ensures r in s.runs
    ensures var s' := RunDo(s, r, step);
            && s'.dispatchers == s.dispatchers && s'.workers == s.workers && s'.waiters == s.waiters
            && s'.runs.Keys == if step.Unlock? then {} else {r}
  {
    assert r in {r};
  }

  lemma OneWorkerLeft(ws: map<Id, Worker>, k: Id, waiters: set<Event>)
    ensures ws.Keys == {k} ==> WorkerRank(ws, waiters) == PcRank(ws[k].pc, waiters != {})
    ensures ws.Keys == {} ==> WorkerRank(ws, waiters) == 0
  {
    if ws.Keys == {k} {
      assert forall q :: q in ws ==> q == k;
      assert k in ws;
    }
  }

  /** A worker's step leaves it with less to do; a failed attempt at the lock leaves it with as much. */
  lemma WorkerMovesOn(s: State, k: Id, step: WorkerStep)
    requires WorkerMay(s, k, step) && s.workers.Keys == {k}
    ensures
      var s' := WorkerDo(s, k, step);
      && s'.dispatchers == s.dispatchers
      && if step.Finish? && s.waiters == {} then s'.workers.Keys == {} && PcRank(s.workers[k].pc, false) > 0
         else
           var rank', rank := PcRank(s'.workers[k].pc, s'.waiters != {}), PcRank(s.workers[k].pc, s.waiters != {});
           s'.workers.Keys == {k} && if step.WorkerTryLock? && s.locked then rank' == rank else rank' < rank
  {
  }

  lemma WorkerDescends(s: State, k: Id, step: WorkerStep)
    requires WorkerMay(s, k, step) && s.workers.Keys == {k}
    ensures
      if step.WorkerTryLock? && s.locked then LeftOf(WorkerDo(s, k, step)) == LeftOf(s)
      else Less(LeftOf(WorkerDo(s, k, step)), LeftOf(s))
  {
    WorkerMovesOn(s, k, step);
    var s' := WorkerDo(s, k, step);
    assert step.WorkerTryLock? && s.locked ==> s'.runs == s.runs && s'.queue == s.queue && s'.waiters == s.waiters;
    hide DispatcherRank, WorkerRank, TheRun, Within, PcRank, WorkerMay, WorkerDo;
    OneWorkerLeft(s.workers, k, s.waiters);
    OneWorkerLeft(s'.workers, k, s'.waiters);
  }

  lemma OnlyRun(s: State, r: Id)
    requires LockInv(s) && r in s.runs
    ensures s.runs.Keys == {r}
  {
    assert Holds(s, ByRun(r));
    assert forall q :: q in s.runs ==> Holds(s, ByRun(q));
  }

  /** Whoever gets somewhere, there is less left to do; a failed attempt at the lock changes nothing in that. */
  lemma StepDescends(s: State, step: Step)
    requires Inv(s) && Enabled(s, step) && !BringsEvent(step)
    ensures if Spins(s, step) then LeftOf(Do(s, step)) == LeftOf(s) else Less(LeftOf(Do(s, step)), LeftOf(s))
  {
    hide LeftOf, LockInv, EventInv, CompletionInv;
    match step
    case OfDispatcher(i, d) => DispatcherDescends(s, i, d);
    case OfRun(r, p) =>
      OnlyRun(s, r);
      RunDescends(s, r, p);
    case OfWorker(k, w) =>
      assert s.workers.Keys == {k};
      WorkerDescends(s, k, w);
  }

  // ----- short of quiescence somebody can get somewhere -----

  lemma DispatcherNext(s: State, i: Event) returns (step: Step)
    requires LockInv(s) && WorkerInv(s) && i in s.dispatchers && s.dispatchers[i] != Handed
    ensures Advances(s, step)
  {
    match s.dispatchers[i]
    case Pushed => step := OfDispatcher(i, TryLock);
    case Acquired => step := OfDispatcher(i, Arm);
    case Armed =>
      var h :| LockedBy(s, h);
      assert Holds(s, ByDispatcher(i)) && (Holds(s, ByRun(0)) <==> 0 in s.runs);
      step := OfDispatcher(i, Spawn(0));
    case Failed => step := OfDispatcher(i, Register(if 0 in s.workers then 1 else 0));
  }

  lemma RunNext(s: State, r: Id) returns (step: Step)
    requires r in s.runs
    ensures Advances(s, step)
  {
    var run := s.runs[r];
    match run.pc
    case Handled => step := OfRun(r, Resume);
    case Popping =>
      if x :| x in s.queue && x.completion {
        step := OfRun(r, Pop(x, false));
      } else {
        step := OfRun(r, FindNoCompletion);
      }
    case Looking =>
      if x :| x in s.queue && !x.completion {
        step := OfRun(r, Pop(x, false));
      } else {
        step := OfRun(r, FindEmpty);
      }
    case Emptied =>
      if x :| x in run.deferred {
        step := OfRun(r, Requeue(x));
      } else {
        step := OfRun(r, Restore);
      }
    case Restored => step := OfRun(r, Complete);
    case Completed => step := OfRun(r, Signal);
    case Signalled => step := OfRun(r, Unlock);
  }

  /** With everybody else done, whatever the worker waits for has happened and the lock is free. */
  lemma WorkerNext(s: State, k: Id, h: Option<Actor>) returns (step: Step)
    requires LockedBy(s, h) && WorkerInv(s) && s.workers.Keys == {k} && s.runs == map[]
    requires forall i :: i in s.dispatchers ==> s.dispatchers[i] == Handed
    ensures Advances(s, step)
  {
    assert k in s.workers;
    if h.Some? {
      assert Holds(s, h.value);
      assert h == Some(ByWorker(k));
    }
    var pc := s.workers[k].pc;
    assert (pc.Waiting? || pc.Draining?) ==> pc.on in s.closed;
    match pc
    case Waiting(_) => step := OfWorker(k, Wake);
    case Trying(_) => step := OfWorker(k, WorkerTryLock);
    case WorkerAcquired => step := OfWorker(k, WorkerArm);
    case WorkerArmed => step := OfWorker(k, Take);
    case Took => step := OfWorker(k, WorkerSpawn(0));
    case Draining(_) => step := OfWorker(k, Drained);
    case Closing => step := OfWorker(k, CloseBatch);
    case Finishing => step := OfWorker(k, Finish);
  }

  lemma SomebodyCanAdvance(s: State) returns (step: Step)
    requires Inv(s) && !Quiescent(s)
    ensures Advances(s, step)
  {
    var h :| LockedBy(s, h);
    if i :| i in s.dispatchers && s.dispatchers[i] != Handed {
      step := DispatcherNext(s, i);
    } else if r :| r in s.runs {
      step := RunNext(s, r);
    } else {
      var k :| k in s.workers;
      assert s.workers.Keys == {k};
      step := WorkerNext(s, k, h);
    }
  }

  /** No deadlock: short of quiescence somebody can always take a step that gets somewhere. */
  lemma NoDeadlock(steps: seq<Step>)
    requires Executable(steps) && !Quiescent(After(steps))
    ensures exists step :: Advances(After(steps), step)
  {
    InvAlways(steps);
    var step := SomebodyCanAdvance(After(steps));
  }

  /** The steps lead from `s` to `t`, and each gets somewhere. */
  predicate Leads(s: State, steps: seq<Step>, t: State)
    decreases |steps|
  {
    if steps == [] then s == t
    else Advances(s, steps[0]) && Leads(Do(s, steps[0]), steps[1..], t)
  }

  /** Steps that get somewhere lead to where nobody is in the middle of anything. */
  lemma {:induction false} CanQuiesce(s: State) returns (steps: seq<Step>, t: State)
    requires Inv(s)
    ensures Leads(s, steps, t) && Quiescent(t) && Inv(t)
    decreases LeftOf(s).dispatchers, LeftOf(s).worker, LeftOf(s).run, LeftOf(s).events, LeftOf(s).within
  {
    hide Inv, Quiescent, LeftOf, Enabled, Do;
    if Quiescent(s) {
      return [], s;
    }
    var step := SomebodyCanAdvance(s);
    StepKeepsInv(s, step);
    StepDescends(s, step);
    steps, t := CanQuiesce(Do(s, step));
    steps := [step] + steps;
  }

  /** No livelock: from wherever an interleaving has got to, the dispatchers, runs and workers
      alone, without any new event, can get to where every completion handed out is closed
      and every event was popped. */
  lemma EveryCompletionCanClose(steps: seq<Step>) returns (more: seq<Step>, t: State)
    requires Executable(steps)
    ensures Leads(After(steps), more, t) && Quiescent(t)
    ensures t.dispatchers.Keys <= t.done && t.queue <= t.popped
  {
    InvAlways(steps);
    more, t := CanQuiesce(After(steps));
    QuiescentIsDone(t);
  }

  // ----- every fair schedule -----

  /** Move `n` of the schedule: a step, or nothing while every goroutine rests. */
  ghost predicate MoveAt(states: nat -> State, moves: nat -> Option<Step>, n: nat) {
    match moves(n)
    case None => states(n + 1) == states(n)
    case Some(step) => Enabled(states(n), step) && states(n + 1) == Do(states(n), step)
  }

  ghost predicate IsSchedule(states: nat -> State, moves: nat -> Option<Step>) {
    states(0) == Init() && forall n: nat :: MoveAt(states, moves, n)
  }

  function Mover(step: Step): Actor {
    match step
    case OfDispatcher(i, _) => ByDispatcher(i)
    case OfRun(r, _) => ByRun(r)
    case OfWorker(k, _) => ByWorker(k)
  }

  ghost predicate CanMove(s: State, a: Actor) {
    exists step :: Mover(step) == a && Enabled(s, step) && !BringsEvent(step)
  }

  ghost predicate CanAlwaysMove(states: nat -> State, a: Actor, n: nat) {
    forall m: nat :: n <= m ==> CanMove(states(m), a)
  }

  ghost predicate MovesAt(moves: nat -> Option<Step>, a: Actor, n: nat) {
    moves(n).Some? && Mover(moves(n).value) == a
  }

  /** Every goroutine that can go on from some point on does go on. Its step may be a failed
      attempt at the lock. */
  ghost predicate Fair(states: nat -> State, moves: nat -> Option<Step>) {
    forall a: Actor, n: nat :: CanAlwaysMove(states, a, n) ==> exists m: nat :: n <= m && MovesAt(moves, a, m)
  }

  predicate NewEventAt(moves: nat -> Option<Step>, n: nat) {
    moves(n).Some? && BringsEvent(moves(n).value)
  }

  /** No event is dispatched or raised from move `n` on. */
  ghost predicate QuietFrom(moves: nat -> Option<Step>, n: nat) {
    forall m: nat :: n <= m ==> !NewEventAt(moves, m)
  }

  lemma {:induction false} ScheduleInv(states: nat -> State, moves: nat -> Option<Step>, n: nat)
    requires IsSchedule(states, moves)
    ensures Inv(states(n))
  {
    hide Inv, Init, Do, Enabled;
    if n == 0 {
      InitInv();
    } else {
      ScheduleInv(states, moves, n - 1);
      assert MoveAt(states, moves, n - 1);
      if moves(n - 1).Some? {
        StepKeepsInv(states(n - 1), moves(n - 1).value);
      }
    }
  }

  ghost predicate AdvancesAt(states: nat -> State, moves: nat -> Option<Step>, n: nat) {
    moves(n).Some? && Advances(states(n), moves(n).value)
  }

  /** One move without a new event: less is left, or as much as before and nobody got anywhere. */
  lemma MoveDescends(states: nat -> State, moves: nat -> Option<Step>, n: nat)
    requires IsSchedule(states, moves) && !NewEventAt(moves, n)
    ensures
      if AdvancesAt(states, moves, n) then Less(LeftOf(states(n + 1)), LeftOf(states(n)))
      else LeftOf(states(n + 1)) == LeftOf(states(n))
  {
    hide Inv, LeftOf, Do, Enabled;
    ScheduleInv(states, moves, n);
    assert MoveAt(states, moves, n);
    if moves(n).Some? {
      StepDescends(states(n), moves(n).value);
    }
  }

  lemma {:induction false} NeverMore(states: nat -> State, moves: nat -> Option<Step>, n: nat, m: nat)
    requires IsSchedule(states, moves) && QuietFrom(moves, n) && n <= m
    ensures LeftOf(states(m)) == LeftOf(states(n)) || Less(LeftOf(states(m)), LeftOf(states(n)))
    decreases m
  {
    hide LeftOf, IsSchedule;
    if n < m {
      NeverMore(states, moves, n, m - 1);
      MoveDescends(states, moves, m - 1);
    }
  }

  /** The same but for which signal a spinning worker saw last. */
  predicate Alike(s: State, t: State) {
    && t == s.(workers := t.workers) && t.workers.Keys == s.workers.Keys
    && forall k :: k in s.workers ==>
         t.workers[k] == s.workers[k] || (s.workers[k].pc.Trying? && t.workers[k].pc.Trying?)
  }

  lemma {:induction false} StaysAlike(states: nat -> State, moves: nat -> Option<Step>, n: nat, m: nat)
    requires IsSchedule(states, moves) && QuietFrom(moves, n) && n <= m
    requires forall l: nat :: n <= l ==> !AdvancesAt(states, moves, l)
    ensures Alike(states(n), states(m))
    decreases m
  {
    if n < m {
      StaysAlike(states, moves, n, m - 1);
      assert MoveAt(states, moves, m - 1);
      assert !NewEventAt(moves, m - 1) && !AdvancesAt(states, moves, m - 1);
      if moves(m - 1).Some? {
        SpinIsAlike(states(m - 1), moves(m - 1).value);
      }
    }
  }

  lemma SpinIsAlike(s: State, step: Step)
    requires Enabled(s, step) && Spins(s, step)
    ensures Alike(s, Do(s, step))
  {
  }

  lemma AlikeEnables(s: State, t: State, step: Step)
    requires Alike(s, t) && Enabled(s, step)
    ensures Enabled(t, step)
  {
    match step
    case OfDispatcher(i, d) =>
    case OfRun(r, p) =>
    case OfWorker(k, w) =>
  }

  /** A worker whose attempt at the lock fails had nothing better to do in any state like this one. */
  lemma SpinnerOnlySpins(s: State, t: State, step: Step, spin: Step)
    requires Alike(s, t) && Enabled(t, spin) && Spins(t, spin)
    requires Mover(step) == Mover(spin)
    ensures !Advances(s, step)
  {
  }

  /** In a fair schedule without new events somebody gets somewhere, short of quiescence. */
  lemma SomebodyAdvances(states: nat -> State, moves: nat -> Option<Step>, n: nat) returns (m: nat)
    requires IsSchedule(states, moves) && Fair(states, moves) && QuietFrom(moves, n) && !Quiescent(states(n))
    ensures n <= m && AdvancesAt(states, moves, m)
  {
    hide Inv, Enabled, Alike, Do;
    if forall l: nat :: n <= l ==> !AdvancesAt(states, moves, l) {
      ScheduleInv(states, moves, n);
      var step := SomebodyCanAdvance(states(n));
      forall l: nat | n <= l
        ensures CanMove(states(l), Mover(step))
      {
        StaysAlike(states, moves, n, l);
        AlikeEnables(states(n), states(l), step);
      }
      assert CanAlwaysMove(states, Mover(step), n);
      var l: nat :| n <= l && MovesAt(moves, Mover(step), l);
      assert !NewEventAt(moves, l) && !AdvancesAt(states, moves, l) && MoveAt(states, moves, l);
      StaysAlike(states, moves, n, l);
      SpinnerOnlySpins(states(n), states(l), step, moves(l).value);
      assert false;
    }
    m :| n <= m && AdvancesAt(states, moves, m);
  }

  /** Every fair schedule finishes: once no new event comes, however dispatchers, runs and workers
      are interleaved, a moment is reached where nobody is in the middle of anything, every
      completion handed out is closed and every event was popped. */
  lemma {:induction false} EveryFairScheduleFinishes(states: nat -> State, moves: nat -> Option<Step>, n: nat)
    returns (m: nat)
    requires IsSchedule(states, moves) && Fair(states, moves) && QuietFrom(moves, n)
    ensures n <= m && Quiescent(states(m))
    ensures states(m).dispatchers.Keys <= states(m).done && states(m).queue <= states(m).popped
    ensures !states(m).locked && !states(m).scheduled && states(m).waiters == {}
    decreases LeftOf(states(n)).dispatchers, LeftOf(states(n)).worker, LeftOf(states(n)).run,
              LeftOf(states(n)).events, LeftOf(states(n)).within
  {
    hide LeftOf, Inv, IsSchedule, Fair, Advances;
    if Quiescent(states(n)) {
      ScheduleInv(states, moves, n);
      QuiescentIsDone(states(n));
      return n;
    }
    var l := SomebodyAdvances(states, moves, n);
    NeverMore(states, moves, n, l);
    MoveDescends(states, moves, l);
    m := EveryFairScheduleFinishes(states, moves, l + 1);
  }

  // ----- every interleaving has a fair continuation -----

  lemma {:induction false} PrefixIsExecutable(steps: seq<Step>, n: nat)
    requires Executable(steps) && n <= |steps|
    ensures Executable(steps[..n])
    decreases |steps|
  {
    if n == |steps| {
      assert steps[..n] == steps;
    } else {
      PrefixIsExecutable(steps[..|steps| - 1], n);
      assert steps[..|steps| - 1][..n] == steps[..n];
    }
  }

  ghost function SomeAdvance(s: State): Option<Step> {
    if step :| Advances(s, step) then Some(step) else None
  }

  /** Anybody who can get somewhere does, until nobody can. */
  ghost function Onward(s: State, n: nat): State {
    if n == 0 then s
    else
      var t := Onward(s, n - 1);
      match SomeAdvance(t)
      case None => t
      case Some(step) => Do(t, step)
  }

  ghost function StateAt(steps: seq<Step>, n: nat): State
    requires Executable(steps)
  {
    if n <= |steps| then PrefixIsExecutable(steps, n); After(steps[..n]) else Onward(After(steps), n - |steps|)
  }

  ghost function MoveOf(steps: seq<Step>, n: nat): Option<Step>
    requires Executable(steps)
  {
    if n < |steps| then Some(steps[n]) else SomeAdvance(StateAt(steps, n))
  }

  lemma PastTheSteps(steps: seq<Step>, n: nat)
    requires Executable(steps) && |steps| <= n
    ensures StateAt(steps, n) == Onward(After(steps), n - |steps|)
  {
    hide Enabled, Do, Advances, After;
    assert n == |steps| ==> steps[..n] == steps;
  }

  lemma MoveLeadsOn(steps: seq<Step>, n: nat)
    requires Executable(steps)
    ensures match MoveOf(steps, n)
            case None => StateAt(steps, n + 1) == StateAt(steps, n)
            case Some(step) => Enabled(StateAt(steps, n), step) && StateAt(steps, n + 1) == Do(StateAt(steps, n), step)
  {
    hide Enabled, Do, BringsEvent, Spins, Init;
    if n < |steps| {
      PrefixIsExecutable(steps, n);
      PrefixIsExecutable(steps, n + 1);
      assert steps[..n + 1][..n] == steps[..n];
    } else {
      PastTheSteps(steps, n);
      PastTheSteps(steps, n + 1);
      assert MoveOf(steps, n).Some? ==> Advances(StateAt(steps, n), MoveOf(steps, n).value);
    }
  }

  lemma QuiescentCannotMove(s: State, a: Actor)
    requires Quiescent(s)
    ensures !CanMove(s, a)
  {
  }

  lemma {:induction false} OnwardQuiesces(states: nat -> State, moves: nat -> Option<Step>, n: nat) returns (m: nat)
    requires IsSchedule(states, moves)
    requires forall l: nat :: n <= l ==> moves(l) == SomeAdvance(states(l))
    ensures n <= m && Quiescent(states(m))
    decreases LeftOf(states(n)).dispatchers, LeftOf(states(n)).worker, LeftOf(states(n)).run,
              LeftOf(states(n)).events, LeftOf(states(n)).within
  {
    hide LeftOf, Inv, IsSchedule, Quiescent;
    if Quiescent(states(n)) {
      return n;
    }
    ScheduleInv(states, moves, n);
    var step := SomebodyCanAdvance(states(n));
    assert AdvancesAt(states, moves, n) && !NewEventAt(moves, n);
    MoveDescends(states, moves, n);
    m := OnwardQuiesces(states, moves, n + 1);
  }

  /** The fair schedules leave nothing out: every interleaving of finitely many steps is the
      beginning of one that brings no further event. */
  lemma EveryInterleavingContinuesFairly(steps: seq<Step>)
    returns (states: nat -> State, moves: nat -> Option<Step>)
    requires Executable(steps)
    ensures IsSchedule(states, moves) && Fair(states, moves) && QuietFrom(moves, |steps|)
    ensures states(|steps|) == After(steps)
    ensures forall n: nat :: n < |steps| ==> moves(n) == Some(steps[n])
  {
    states, moves := (n: nat) => StateAt(steps, n), (n: nat) => MoveOf(steps, n);
    forall n: nat
      ensures MoveAt(states, moves, n)
    {
      MoveLeadsOn(steps, n);
    }
    assert steps[..0] == [] && steps[..|steps|] == steps;
    assert IsSchedule(states, moves);
    forall a: Actor, n: nat
      ensures !CanAlwaysMove(states, a, n)
    {
      var m := OnwardQuiesces(states, moves, n + |steps|);
      QuiescentCannotMove(states(m), a);
    }
  }
}
