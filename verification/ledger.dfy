/** Where raised events come from: each is raised by an act that happened, at the moment it happened,
    announces a final state that was entered, or was pushed by another goroutine before a pop. */
module Ledger {
  import opened Options
  import opened Paths
  import opened Models
  import opened PathCompiler
  import opened EventQueue
  import opened Semantics
  import opened DispatchTables
  import opened Conservation
  import opened RunToCompletion
  import opened ProcessLoop

  /** Something that happened while an event was handled, or the pop of the next one. */
  datatype Entry = Did(event: Event, act: Act, moment: nat) | Popped(moment: nat)

  predicate IsFinal(m: Model, p: Path) {
    p in m.vertices && m.vertices[p].kind.Final?
  }

  /** What an entry adds to the events raised. */
  function Yield(m: Model, env: Env, x: Entry): seq<Event> {
    match x
    case Popped(k) => env.arrive(k)
    case Did(e, act, k) =>
      match act
      case Entered(p) => if IsFinal(m, p) then [Event("hsm/final", true, "", p, 0)] else env.raise(act, e, k)
      case Exited(p) => if IsFinal(m, p) then [] else env.raise(act, e, k)
      case Effect(_) => env.raise(act, e, k)
      case Recorded(_, _) => []
  }

  /** Running behaviours and popping take a moment; recording and final states do not. */
  predicate Ticks(m: Model, x: Entry) {
    match x
    case Popped(_) => true
    case Did(_, act, _) =>
      match act
      case Entered(p) => !IsFinal(m, p)
      case Exited(p) => !IsFinal(m, p)
      case Effect(_) => true
      case Recorded(_, _) => false
  }

  function Acts(log: seq<Entry>): seq<Act> {
    if log == [] then []
    else Acts(log[..|log| - 1]) + match log[|log| - 1] case Did(_, act, _) => [act] case Popped(_) => []
  }

  function Yields(m: Model, env: Env, log: seq<Entry>): seq<Event> {
    if log == [] then [] else Yields(m, env, log[..|log| - 1]) + Yield(m, env, log[|log| - 1])
  }

  /** The entries happened one after the other between the two moments. */
  predicate Timed(m: Model, log: seq<Entry>, from: nat, to: nat) {
    if log == [] then from <= to
    else
      var last := log[|log| - 1];
      Timed(m, log[..|log| - 1], from, last.moment) && last.moment + (if Ticks(m, last) then 1 else 0) <= to
  }

  /** `log` accounts for the acts and the raised events between the two worlds. */
  ghost predicate Logged(m: Model, env: Env, w: World, log: seq<Entry>, after: World) {
    && after.trace == w.trace + Acts(log)
    && after.raised == w.raised + Yields(m, env, log)
    && Timed(m, log, w.clock, after.clock)
  }

  /** Everything happened while handling the one event, and what was raised was pushed in order. */
  ghost predicate Explains(c: Context, w: World, log: seq<Entry>, after: World) {
    && Logged(c.model, c.env, w, log, after)
    && (forall x :: x in log ==> x.Did? && x.event == c.event)
    && after.queue == PushAll(w.queue, Yields(c.model, c.env, log))
  }

  ghost predicate Explained(c: Context, w: World, after: World) {
    exists log :: Explains(c, w, log, after)
  }

  ghost predicate StepExplained(c: Context, w: World, step: Result) {
    step.Ran? ==> Explained(c, w, step.world)
  }

  // ----- logs one after the other -----

  lemma {:induction false} JoinedLog(m: Model, env: Env, a: seq<Entry>, b: seq<Entry>)
    ensures Acts(a + b) == Acts(a) + Acts(b)
    ensures Yields(m, env, a + b) == Yields(m, env, a) + Yields(m, env, b)
    decreases b
  {
    hide Yield;
    if b == [] {
      assert a + b == a;
    } else {
      assert (a + b)[..|a + b| - 1] == a + b[..|b| - 1];
      JoinedLog(m, env, a, b[..|b| - 1]);
    }
  }

  lemma {:induction false} JoinedTimes(m: Model, a: seq<Entry>, b: seq<Entry>, from: nat, mid: nat, to: nat)
    requires Timed(m, a, from, mid) && Timed(m, b, mid, to)
    ensures Timed(m, a + b, from, to)
    decreases b
  {
    hide Ticks;
    if b == [] {
      assert a + b == a;
      LaterEnd(m, a, from, mid, to);
    } else {
      assert (a + b)[..|a + b| - 1] == a + b[..|b| - 1];
      JoinedTimes(m, a, b[..|b| - 1], from, mid, b[|b| - 1].moment);
    }
  }

  lemma LaterEnd(m: Model, log: seq<Entry>, from: nat, to: nat, later: nat)
    requires Timed(m, log, from, to) && to <= later
    ensures Timed(m, log, from, later)
  {
  }

  lemma {:induction false} PushedInTurn(q: Pending, a: seq<Event>, b: seq<Event>)
    ensures PushAll(q, a + b) == PushAll(PushAll(q, a), b)
    decreases b
  {
    if b == [] {
      assert a + b == a;
    } else {
      assert (a + b)[..|a + b| - 1] == a + b[..|b| - 1];
      PushedInTurn(q, a, b[..|b| - 1]);
    }
  }

  lemma LoggedTransitive(m: Model, env: Env, w: World, a: seq<Entry>, mid: World, b: seq<Entry>, after: World)
    requires Logged(m, env, w, a, mid) && Logged(m, env, mid, b, after)
    ensures Logged(m, env, w, a + b, after)
  {
    hide Acts, Yields, Timed;
    JoinedLog(m, env, a, b);
    JoinedTimes(m, a, b, w.clock, mid.clock, after.clock);
    assert w.trace + Acts(a) + Acts(b) == w.trace + (Acts(a) + Acts(b));
    assert w.raised + Yields(m, env, a) + Yields(m, env, b) == w.raised + (Yields(m, env, a) + Yields(m, env, b));
  }

  lemma ExplainedTransitive(c: Context, w: World, mid: World, after: World)
    requires Explained(c, w, mid) && Explained(c, mid, after)
    ensures Explained(c, w, after)
  {
    hide Logged, Acts, Yields, PushAll;
    var a :| Explains(c, w, a, mid);
    var b :| Explains(c, mid, b, after);
    LoggedTransitive(c.model, c.env, w, a, mid, b, after);
    JoinedLog(c.model, c.env, a, b);
    PushedInTurn(w.queue, Yields(c.model, c.env, a), Yields(c.model, c.env, b));
    assert Explains(c, w, a + b, after);
  }

  lemma ExplainedFrom(c: Context, w: World, mid: World, step: Result)
    requires Explained(c, w, mid) && StepExplained(c, mid, step)
    ensures StepExplained(c, w, step)
  {
    hide Explained;
    if step.Ran? {
      ExplainedTransitive(c, w, mid, step.world);
    }
  }

  // ----- single acts -----

  lemma OneEntry(m: Model, env: Env, x: Entry)
    ensures Acts([x]) == match x case Did(_, act, _) => [act] case Popped(_) => []
    ensures Yields(m, env, [x]) == Yield(m, env, x)
    ensures forall from: nat, to: nat :: from <= x.moment && x.moment + (if Ticks(m, x) then 1 else 0) <= to ==>
              Timed(m, [x], from, to)
  {
    assert [x][..0] == [];
    assert Acts([]) == [] && Yields(m, env, []) == [];
  }

  lemma ActExplained(c: Context, w: World, act: Act, after: World)
    requires after.trace == w.trace + [act]
    requires var es := Yield(c.model, c.env, Did(c.event, act, w.clock));
             after.raised == w.raised + es && after.queue == PushAll(w.queue, es)
    requires after.clock == w.clock + if Ticks(c.model, Did(c.event, act, w.clock)) then 1 else 0
    ensures Explained(c, w, after)
  {
    hide Yield, Acts, Yields, Timed, Ticks, PushAll;
    var x := Did(c.event, act, w.clock);
    OneEntry(c.model, c.env, x);
    assert Explains(c, w, [x], after);
  }

  lemma OnlyTickedExplained(c: Context, w: World, after: World)
    requires after == w.(shallow := after.shallow, deep := after.deep, clock := after.clock) && w.clock <= after.clock
    ensures Explained(c, w, after)
  {
    assert Explains(c, w, [], after) by {
      assert Acts([]) == [] && Yields(c.model, c.env, []) == [];
      assert w.trace + [] == w.trace && w.raised + [] == w.raised;
    }
  }

  lemma EnteredExplained(c: Context, w: World, p: Path)
    requires p in c.model.vertices
    ensures IsComposite(c.model.vertices[p].kind) ==> Explained(c, w, Perform(c, w, Entered(p)))
    ensures c.model.vertices[p].kind.Final? ==> Explained(c, w, EnterFinal(w, p))
  {
    hide Explained;
    if IsComposite(c.model.vertices[p].kind) {
      ActExplained(c, w, Entered(p), Perform(c, w, Entered(p)));
    } else if c.model.vertices[p].kind.Final? {
      PushedOnce(w.queue, FinalCompletion(p));
      ActExplained(c, w, Entered(p), EnterFinal(w, p));
    }
  }

  lemma PushedOnce(q: Pending, e: Event)
    ensures PushAll(q, [e]) == Push(q, e)
  {
    assert [e][..0] == [];
    assert PushAll(q, []) == q;
  }

  lemma ExitExplained(c: Context, w: World, p: Path)
    requires p in c.model.vertices
    ensures Explained(c, w, Exit(c, w, p))
  {
    hide Explained;
    var k := c.model.vertices[p].kind;
    if IsComposite(k) {
      ActExplained(c, w, Exited(p), Exit(c, w, p));
    } else if k.Final? {
      assert w.raised + [] == w.raised && PushAll(w.queue, []) == w.queue;
      ActExplained(c, w, Exited(p), Exit(c, w, p));
    } else {
      OnlyTickedExplained(c, w, w);
    }
  }

  lemma EffectExplained(c: Context, w: World, n: Path)
    ensures Explained(c, w, Perform(c, w, Effect(n)))
  {
    hide Explained;
    ActExplained(c, w, Effect(n), Perform(c, w, Effect(n)));
  }

  lemma RecordExplained(c: Context, w: World, s: Path, skip: Option<Path>)
    ensures Explained(c, w, Record(c.model, w, s, skip))
  {
    hide Explained;
    if HasState(c.model, s) {
      assert w.raised + [] == w.raised && PushAll(w.queue, []) == w.queue;
      ActExplained(c, w, Recorded(s, skip), Record(c.model, w, s, skip));
    } else {
      OnlyTickedExplained(c, w, w);
    }
  }

  lemma {:induction false} FirstEnabledTicks(c: Context, w: World, names: seq<Path>)
    ensures var w' := FirstEnabled(c, w, names).0; w' == w.(clock := w'.clock) && w.clock <= w'.clock
    decreases names
  {
    if names != [] {
      var w' := if names[0] in c.model.transitions then Enabled(c, w, c.model.transitions[names[0]]).0 else w;
      FirstEnabledTicks(c, w', names[1..]);
    }
  }

  lemma FirstEnabledExplained(c: Context, w: World, names: seq<Path>)
    ensures Explained(c, w, FirstEnabled(c, w, names).0)
  {
    hide FirstEnabled, Explained;
    FirstEnabledTicks(c, w, names);
    OnlyTickedExplained(c, w, FirstEnabled(c, w, names).0);
  }

  // ----- entering and firing -----

  lemma {:induction false} ExitAllExplained(c: Context, w: World, exit: seq<Path>)
    ensures Explained(c, w, ExitAll(c, w, exit).0)
    decreases exit
  {
    hide Explained, Exit;
    if exit != [] && exit[0] in c.model.vertices {
      var w1 := Exit(c, w, exit[0]);
      ExitExplained(c, w, exit[0]);
      ExitAllExplained(c, w1, exit[1..]);
      ExplainedTransitive(c, w, w1, ExitAll(c, w1, exit[1..]).0);
    } else {
      OnlyTickedExplained(c, w, w);
    }
  }

  /** Across an entry the acts appended to the trace raised exactly what was raised and queued. */
  lemma {:induction false} EnterExplained(c: Context, fuel: nat, w: World, p: Path, byDefault: bool)
    requires p in c.model.vertices
    ensures StepExplained(c, w, Enter(c, fuel, w, p, byDefault))
    decreases fuel, 0, 0
  {
    hide Fire, EnterAll, EnterRecorded, EnterUnrecorded, Explained, FirstEnabled, Perform, EnterFinal, HistoryPath;
    var v := c.model.vertices[p];
    EnteredExplained(c, w, p);
    if fuel == 0 {
    } else if IsComposite(v.kind) {
      var w1, initial := Perform(c, w, Entered(p)), InitialTransition(c.model, p);
      if byDefault && initial.Some? {
        FireExplained(c, fuel - 1, w1, p, initial.value);
        ExplainedFrom(c, w, w1, Fire(c, fuel - 1, w1, p, initial.value));
      }
    } else if v.kind.Choice? {
      var (w1, t) := FirstEnabled(c, w, v.transitions);
      FirstEnabledExplained(c, w, v.transitions);
      if t.Some? {
        FireExplained(c, fuel - 1, w1, p, t.value);
        ExplainedFrom(c, w, w1, Fire(c, fuel - 1, w1, p, t.value));
      }
    } else if IsHistory(v.kind) {
      var recorded := Recall(w, v.kind, Dir(p));
      OnlyTickedExplained(c, w, w);
      if recorded.None? {
        UnrecordedExplained(c, fuel - 1, w, p);
      } else if HistoryPath(c.model, Dir(p), recorded.value) != [] {
        RecordedExplained(c, fuel - 1, w, HistoryPath(c.model, Dir(p), recorded.value), v.kind.ShallowHistory?);
      }
    } else {
      OnlyTickedExplained(c, w, w);
    }
  }

  lemma {:induction false} UnrecordedExplained(c: Context, fuel: nat, w: World, history: Path)
    requires history in c.model.vertices
    ensures StepExplained(c, w, EnterUnrecorded(c, fuel, w, history))
    decreases fuel, 3, 0
  {
    hide Enter, Fire, EnterAll, EnterRecorded, Explained, FirstEnabled;
    var (w1, t) := FirstEnabled(c, w, c.model.vertices[history].transitions);
    FirstEnabledExplained(c, w, c.model.vertices[history].transitions);
    var followed := if t.Some? then Fire(c, fuel, w1, history, t.value) else Ran(w1, None);
    if t.Some? {
      FireExplained(c, fuel, w1, history, t.value);
      ExplainedFrom(c, w, w1, followed);
    }
    var owner := Dir(history);
    var initial := if HasState(c.model, owner) then InitialTransition(c.model, owner) else None;
    if followed.Ran? && followed.at.None? && initial.Some? {
      FireExplained(c, fuel, followed.world, owner, initial.value);
      ExplainedFrom(c, w, followed.world, Fire(c, fuel, followed.world, owner, initial.value));
    }
  }

  lemma {:induction false} RecordedExplained(c: Context, fuel: nat, w: World, path: seq<Path>, shallow: bool)
    requires path != []
    ensures StepExplained(c, w, EnterRecorded(c, fuel, w, path, shallow))
    decreases fuel, 1, |path|
  {
    hide Enter, Fire, EnterAll, EnterUnrecorded, Explained;
    OnlyTickedExplained(c, w, w);
    if path[0] in c.model.vertices {
      EnterExplained(c, fuel, w, path[0], shallow && |path| == 1);
      var step := Enter(c, fuel, w, path[0], shallow && |path| == 1);
      if step.Ran? && |path| > 1 {
        RecordedExplained(c, fuel, step.world, path[1..], shallow);
        ExplainedFrom(c, w, step.world, EnterRecorded(c, fuel, step.world, path[1..], shallow));
      }
    }
  }

  lemma {:induction false} EnterAllExplained(c: Context, fuel: nat, w: World, enter: seq<Path>, target: Option<Path>)
    ensures StepExplained(c, w, EnterAll(c, fuel, w, enter, target))
    decreases fuel, 1, |enter|
  {
    hide Enter, Fire, EnterRecorded, EnterUnrecorded, Explained;
    OnlyTickedExplained(c, w, w);
    if enter != [] && enter[0] in c.model.vertices {
      var byDefault := Some(enter[0]) == target;
      EnterExplained(c, fuel, w, enter[0], byDefault);
      var step := Enter(c, fuel, w, enter[0], byDefault);
      if step.Ran? && step.at.Some? && !byDefault {
        EnterAllExplained(c, fuel, step.world, enter[1..], target);
        ExplainedFrom(c, w, step.world, EnterAll(c, fuel, step.world, enter[1..], target));
      }
    }
  }

  /** Likewise across firing a transition, whether or not it arrives. */
  lemma {:induction false} FireExplained(c: Context, fuel: nat, w: World, current: Path, t: Transition)
    ensures StepExplained(c, w, Fire(c, fuel, w, current, t))
    decreases fuel, 2, 0
  {
    hide Enter, EnterAll, EnterRecorded, EnterUnrecorded, RouteOf, ExitAll, Explained, Record, Perform;
    OnlyTickedExplained(c, w, w);
    if Reaches(c.model, t, current) {
      var route := RouteOf(c.model, t, current);
      var w1 := if route.exit != [] then Record(c.model, w, current, HistoryOwner(c.model, t)) else w;
      RecordExplained(c, w, current, HistoryOwner(c.model, t));
      var (w2, left) := ExitAll(c, w1, route.exit);
      ExitAllExplained(c, w1, route.exit);
      ExplainedTransitive(c, w, w1, w2);
      var w3 := Perform(c, w2, Effect(t.name));
      EffectExplained(c, w2, t.name);
      ExplainedTransitive(c, w, w2, w3);
      EnterAllExplained(c, fuel, w3, route.enter, t.target);
      ExplainedFrom(c, w, w3, EnterAll(c, fuel, w3, route.enter, t.target));
    }
  }

  // ----- events and runs -----

  lemma {:induction false} ChooseTicks(c: Context, w: World, ts: seq<Transition>)
    ensures var w' := Choose(c, w, ts).0; w' == w.(clock := w'.clock) && w.clock <= w'.clock
    decreases ts
  {
    if ts != [] {
      ChooseTicks(c, Enabled(c, w, ts[0]).0, ts[1..]);
    }
  }

  lemma TryRowExplained(c: Context, fuel: nat, s: Machine, ts: seq<Transition>)
    ensures var a := TryRow(c, fuel, s, ts); a.Tried? ==> Explained(c, s.world, a.machine.world)
  {
    hide Fire, Explained, Choose;
    ChooseTicks(c, s.world, ts);
    var (w, t) := Choose(c, s.world, ts);
    OnlyTickedExplained(c, s.world, w);
    if t.Some? {
      FireExplained(c, fuel, w, s.state, t.value);
      ExplainedFrom(c, s.world, w, Fire(c, fuel, w, s.state, t.value));
    }
  }

  lemma ProcessEventExplained(c: Context, fuel: nat, s: Machine)
    ensures var h := ProcessEvent(c, fuel, s); h.Handled? ==> Explained(c, s.world, h.machine.world)
  {
    hide TryRow, Candidates, Explained, TableOwner;
    var m, e := c.model, c.event.name;
    var owner := TableOwner(m, s.state, s.state, e);
    TryRowExplained(c, fuel, s, Candidates(m, s.state, e, owner));
    var specific := TryRow(c, fuel, s, Candidates(m, s.state, e, owner));
    if specific.Tried? {
      var any := Candidates(m, s.state, ANY_EVENT, owner);
      TryRowExplained(c, fuel, specific.machine, any);
      if TryRow(c, fuel, specific.machine, any).Tried? {
        ExplainedTransitive(c, s.world, specific.machine.world, TryRow(c, fuel, specific.machine, any).machine.world);
      }
    }
  }

  /** Some log accounts for what happened between the two worlds, pops and all. */
  ghost predicate Accounted(m: Model, env: Env, w: World, after: World) {
    exists log :: Logged(m, env, w, log, after)
  }

  lemma AccountedTransitive(m: Model, env: Env, w: World, mid: World, after: World)
    requires Accounted(m, env, w, mid) && Accounted(m, env, mid, after)
    ensures Accounted(m, env, w, after)
  {
    hide Logged;
    var a :| Logged(m, env, w, a, mid);
    var b :| Logged(m, env, mid, b, after);
    LoggedTransitive(m, env, w, a, mid, b, after);
  }

  lemma ExplainedIsAccounted(c: Context, w: World, after: World)
    requires Explained(c, w, after)
    ensures Accounted(c.model, c.env, w, after)
  {
    hide Logged;
    var log :| Explains(c, w, log, after);
  }

  lemma PopAccounted(m: Model, env: Env, w: World, after: World)
    requires after == Arrive(env, w).(queue := after.queue)
    ensures Accounted(m, env, w, after)
  {
    var x := Popped(w.clock);
    OneEntry(m, env, x);
    hide Acts, Yields, Timed;
    assert w.trace + [] == w.trace;
    assert Logged(m, env, w, [x], after);
  }

  lemma SameAccounted(m: Model, env: Env, w: World, mid: World, after: World)
    requires Accounted(m, env, w, mid) && after == mid.(queue := after.queue)
    ensures Accounted(m, env, w, after)
  {
    var log :| Logged(m, env, w, log, mid);
    assert Logged(m, env, w, log, after);
  }

  ghost predicate ProgressAccounted(m: Model, env: Env, l: Loop, next: Progress) {
    next.Running? || next.Ended? ==> Accounted(m, env, l.machine.world, next.loop.machine.world)
  }

  lemma IterateAccounted(m: Model, env: Env, fuel: nat, currentId: string, l: Loop)
    ensures ProgressAccounted(m, env, l, Iterate(m, env, fuel, currentId, l))
  {
    hide ProcessEvent, TableOwner, PushAll, Accounted, Explained, Events, Kept, Dropped;
    var w := Arrive(env, l.machine.world);
    if IsEmpty(w.queue) {
      PopAccounted(m, env, l.machine.world, w.(queue := PushAll(w.queue, Events(l.deferred))));
    } else {
      var e, s := StripId(Head(w.queue)), l.machine.(world := w.(queue := Rest(w.queue)));
      PopAccounted(m, env, l.machine.world, s.world);
      var h := ProcessEvent(Context(m, env, e), fuel, s);
      ProcessEventExplained(Context(m, env, e), fuel, s);
      if h.Handled? {
        ExplainedIsAccounted(Context(m, env, e), s.world, h.machine.world);
        AccountedTransitive(m, env, l.machine.world, s.world, h.machine.world);
        SameAccounted(m, env, l.machine.world, h.machine.world, Consume(m, l, h, e).machine.world);
      }
    }
  }

  lemma {:induction false} ProcessAccounted(m: Model, env: Env, fuel: nat, turns: nat, currentId: string, l: Loop)
    ensures ProgressAccounted(m, env, l, Process(m, env, fuel, turns, currentId, l))
    decreases turns
  {
    hide Iterate, Accounted;
    if turns == 0 {
      NothingAccounted(m, env, l.machine.world);
    } else {
      IterateAccounted(m, env, fuel, currentId, l);
      var next := Iterate(m, env, fuel, currentId, l);
      if next.Running? {
        ProcessAccounted(m, env, fuel, turns - 1, currentId, next.loop);
        var last := Process(m, env, fuel, turns - 1, currentId, next.loop);
        if last.Running? || last.Ended? {
          AccountedTransitive(m, env, l.machine.world, next.loop.machine.world, last.loop.machine.world);
        }
      }
    }
  }

  lemma NothingAccounted(m: Model, env: Env, w: World)
    ensures Accounted(m, env, w, w)
  {
    assert Logged(m, env, w, [], w) by {
      assert Acts([]) == [] && Yields(m, env, []) == [];
      assert w.trace + [] == w.trace && w.raised + [] == w.raised;
    }
  }

  /** No raised event is lost: when a process run ends, what is queued, was consumed or discarded
      is what there was at its start, and for every act that happened what its behaviours raised at
      that moment, for every final state entered its completion event, and for every pop what other
      goroutines had pushed. */
  lemma ProcessLosesNothing(m: Model, env: Env, fuel: nat, turns: nat, currentId: string, l: Loop)
    returns (log: seq<Entry>)
    requires Process(m, env, fuel, turns, currentId, l).Ended?
    ensures var after := Process(m, env, fuel, turns, currentId, l).loop;
            && Logged(m, env, l.machine.world, log, after.machine.world)
            && FinalAccount(after) == Account(l) + Bag(Yields(m, env, log))
  {
    hide Process, Logged, Account, FinalAccount, Bag, Yields;
    ProcessAccounted(m, env, fuel, turns, currentId, l);
    ProcessConserves(m, env, fuel, turns, currentId, l);
    var after := Process(m, env, fuel, turns, currentId, l).loop;
    var before := l.machine.world.raised;
    log :| Logged(m, env, l.machine.world, log, after.machine.world);
    assert after.machine.world.raised == before + Yields(m, env, log) by {
      LoggedRaises(m, env, l.machine.world, log, after.machine.world);
    }
    BagOfConcat(before, Yields(m, env, log));
    Cancel(FinalAccount(after), Bag(before), Account(l), Bag(Yields(m, env, log)));
  }

  lemma LoggedRaises(m: Model, env: Env, w: World, log: seq<Entry>, after: World)
    requires Logged(m, env, w, log, after)
    ensures after.raised == w.raised + Yields(m, env, log)
  {
  }

  lemma Cancel(a: multiset<Event>, b: multiset<Event>, c: multiset<Event>, d: multiset<Event>)
    requires a + b == c + (b + d)
    ensures a == c + d
  {
    forall x
      ensures a[x] == (c + d)[x]
    {
      assert (a + b)[x] == (c + (b + d))[x];
    }
  }

  // ----- in plain multisets -----

  /** Events without the identifiers the runtime adds. */
  function Plain(es: seq<Event>): seq<Event> {
    seq(|es|, i requires 0 <= i < |es| => es[i].(id := ""))
  }

  lemma {:induction false} BagIsMultiset(es: seq<Event>)
    ensures Bag(es) == multiset(Plain(es))
    decreases es
  {
    if es != [] {
      var front, last := es[..|es| - 1], es[|es| - 1];
      BagIsMultiset(front);
      assert Plain(es) == Plain(front) + [last.(id := "")];
    }
  }

  function Queued(q: Pending): seq<Event> {
    q.completions + q.regular
  }

  lemma QueueIsMultiset(q: Pending)
    ensures QueueBag(q) == multiset(Plain(Queued(q)))
  {
    BagOfConcat(q.completions, q.regular);
    BagIsMultiset(Queued(q));
  }

  /** The same of one process run, in multisets of events: what was queued and what was raised is
      queued, was consumed or was discarded. */
  lemma EveryEventIsKept(m: Model, env: Env, fuel: nat, turns: nat, currentId: string, s: Machine)
    returns (log: seq<Entry>)
    requires Process(m, env, fuel, turns, currentId, Begin(s)).Ended?
    ensures var after := Process(m, env, fuel, turns, currentId, Begin(s)).loop;
            && Logged(m, env, s.world, log, after.machine.world)
            && multiset(Plain(Queued(after.machine.world.queue) + after.consumed + after.discarded))
               == multiset(Plain(Queued(s.world.queue) + Yields(m, env, log)))
  {
    hide Process, Logged, Yields, Bag, Plain, QueueBag;
    log := ProcessLosesNothing(m, env, fuel, turns, currentId, Begin(s));
    var after := Process(m, env, fuel, turns, currentId, Begin(s)).loop;
    var q, q' := Queued(s.world.queue), Queued(after.machine.world.queue);
    QueueIsMultiset(s.world.queue);
    QueueIsMultiset(after.machine.world.queue);
    BagOfNone();
    BagOfConcat(q' + after.consumed, after.discarded);
    BagOfConcat(q', after.consumed);
    BagOfConcat(q, Yields(m, env, log));
    BagIsMultiset(q);
    BagIsMultiset(q');
    BagIsMultiset(q' + after.consumed + after.discarded);
    BagIsMultiset(q + Yields(m, env, log));
  }

  // ----- whole runs -----

  /** Every event dispatched, over all activations. */
  function Dispatched(activations: seq<Activation>): seq<Event> {
    if activations == [] then [] else activations[0].events + Dispatched(activations[1..])
  }

  /** Over any number of process runs: what was queued, was dispatched or was raised is queued at the
      end, or was consumed or discarded on the way. */
  lemma {:induction false} RunLosesNothing(m: Model, env: Env, fuel: nat, turns: nat, s: Machine,
          activations: seq<Activation>)
    returns (consumed: seq<Event>, discarded: seq<Event>, log: seq<Entry>)
    requires Run(m, env, fuel, turns, s, activations).Some?
    ensures var after := Run(m, env, fuel, turns, s, activations).value;
            && Logged(m, env, s.world, log, after.world)
            && QueueBag(after.world.queue) + Bag(consumed) + Bag(discarded)
               == QueueBag(s.world.queue) + Bag(Dispatched(activations)) + Bag(Yields(m, env, log))
    decreases activations
  {
    hide Process, Bag, QueueBag, PushAll;
    consumed, discarded, log := [], [], [];
    BagOfNone();
    if activations == [] {
      assert Acts([]) == [] && Yields(m, env, []) == [];
      assert s.world.trace + [] == s.world.trace && s.world.raised + [] == s.world.raised;
    } else {
      hide Logged, Yields, Dispatched;
      var a := activations[0];
      var begun := PushEvents(s, a.events);
      var l := Process(m, env, fuel, turns, a.currentId, Begin(begun)).loop;
      var first := ProcessLosesNothing(m, env, fuel, turns, a.currentId, Begin(begun));
      var consumed', discarded', rest := RunLosesNothing(m, env, fuel, turns, l.machine, activations[1..]);
      var after := Run(m, env, fuel, turns, s, activations).value;
      LoggedFromQueue(m, env, s.world, begun.world, first, l.machine.world);
      LoggedTransitive(m, env, s.world, first, l.machine.world, rest, after.world);
      consumed, discarded, log := l.consumed + consumed', l.discarded + discarded', first + rest;
      JoinedLog(m, env, first, rest);
      BagOfConcat(Yields(m, env, first), Yields(m, env, rest));
      BagOfConcat(l.consumed, consumed');
      BagOfConcat(l.discarded, discarded');
      DispatchedNext(activations);
      BagOfConcat(a.events, Dispatched(activations[1..]));
      PushAllBag(s.world.queue, a.events);
      RunsAddUp(QueueBag(s.world.queue), Bag(a.events), Bag(Yields(m, env, first)),
                QueueBag(l.machine.world.queue), Bag(l.consumed), Bag(l.discarded),
                Bag(Dispatched(activations[1..])), Bag(Yields(m, env, rest)),
                QueueBag(after.world.queue), Bag(consumed'), Bag(discarded'));
    }
  }

  lemma RunsAddUp(q: multiset<Event>, d1: multiset<Event>, y1: multiset<Event>,
                  q1: multiset<Event>, c1: multiset<Event>, x1: multiset<Event>,
                  d2: multiset<Event>, y2: multiset<Event>,
                  q2: multiset<Event>, c2: multiset<Event>, x2: multiset<Event>)
    requires q1 + c1 + x1 == q + d1 + y1 && q2 + c2 + x2 == q1 + d2 + y2
    ensures q2 + (c1 + c2) + (x1 + x2) == q + (d1 + d2) + (y1 + y2)
  {
    forall e
      ensures (q2 + (c1 + c2) + (x1 + x2))[e] == (q + (d1 + d2) + (y1 + y2))[e]
    {
      assert (q1 + c1 + x1)[e] == (q + d1 + y1)[e] && (q2 + c2 + x2)[e] == (q1 + d2 + y2)[e];
    }
  }

  lemma DispatchedNext(activations: seq<Activation>)
    requires activations != []
    ensures Dispatched(activations) == activations[0].events + Dispatched(activations[1..])
  {
  }

  lemma LoggedFromQueue(m: Model, env: Env, w: World, w1: World, log: seq<Entry>, after: World)
    requires w1 == w.(queue := w1.queue) && Logged(m, env, w1, log, after)
    ensures Logged(m, env, w, log, after)
  {
  }
}
