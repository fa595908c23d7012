/** Handling one event, and the process loop that defers, replays and discards. */
module RunToCompletion {
  import opened Options
  import opened Paths
  import opened Models
  import opened PathCompiler
  import opened EventQueue
  import opened Semantics
  import opened Configuration
  import opened DispatchTables

  /** A machine between two steps: its current element and everything else it can change. */
  datatype Machine = Machine(state: Path, world: World)

  datatype Attempt = OutOfFuel | Tried(machine: Machine, taken: Option<Transition>)

  /** `taken` is the transition taken; `owner` is the state that defers the event. */
  datatype Outcome = Stuck | Handled(machine: Machine, taken: Option<Transition>, owner: Option<Path>)

  datatype Deferred = Deferred(owner: Path, event: Event)

  datatype Loop = Loop(machine: Machine, deferred: seq<Deferred>, consumed: seq<Event>, discarded: seq<Event>)

  datatype Progress = Lost | Running(loop: Loop) | Ended(loop: Loop)

  const INTERNAL_ID := "\0hsm:"

  // ----- one event -----

  /** Try the guards in order; each evaluation ticks the clock. */
  function Choose(c: Context, w: World, ts: seq<Transition>): (World, Option<Transition>)
    decreases ts
  {
    if ts == [] then (w, None)
    else
      var (w', matches) := Enabled(c, w, ts[0]);
      if matches then (w', Some(ts[0])) else Choose(c, w', ts[1..])
  }

  /** One pass over a table row: the first enabled transition is fired, and no other. */
  function TryRow(c: Context, fuel: nat, s: Machine, ts: seq<Transition>): Attempt {
    var (w, t) := Choose(c, s.world, ts);
    if t.None? then Tried(s.(world := w), None)
    else
      var step := Fire(c, fuel, w, s.state, t.value);
      if step.Diverged? then OutOfFuel
      else if step.at.None? then Tried(s.(world := step.world), None)
      else Tried(Machine(step.at.value, step.world), t)
  }

  function Candidates(m: Model, q: Path, e: string, owner: Option<Path>): seq<Transition> {
    WithOwner(m, Row(m, q, q, e), owner)
  }

  function ProcessEvent(c: Context, fuel: nat, s: Machine): Outcome {
    var m, e := c.model, c.event.name;
    var owner := TableOwner(m, s.state, s.state, e);
    var specific := TryRow(c, fuel, s, Candidates(m, s.state, e, owner));
    var last := if specific.OutOfFuel? || specific.taken.Some? || e == ANY_EVENT then specific
                else TryRow(c, fuel, specific.machine, Candidates(m, s.state, ANY_EVENT, owner));
    if last.OutOfFuel? then Stuck
    else Handled(last.machine, last.taken, if last.taken.Some? then None else owner)
  }

  // ----- the loop -----

  /** Events that other goroutines pushed before this pop. */
  function Arrive(env: Env, w: World): World {
    var es := env.arrive(w.clock);
    w.(queue := PushAll(w.queue, es), raised := w.raised + es, clock := w.clock + 1)
  }

  predicate IsInternalId(id: string) {
    INTERNAL_ID <= id
  }

  function StripId(e: Event): Event {
    if IsInternalId(e.id) then e.(id := "") else e
  }

  /** The innermost submachine state at or above `p`, the root excepted. */
  function Enclosing(m: Model, p: Path): Option<Path>
    decreases |p|
  {
    if p == [] then None
    else if p in m.vertices && p != m.root && m.vertices[p].kind.Submachine? then Some(p)
    else if p == m.root then None
    else Enclosing(m, Dir(p))
  }

  /** A deferred event is dropped when its owner's submachine has been left, unless the
      transition that left came from inside it. */
  predicate Discards(m: Model, active: Path, source: Option<Path>, d: Deferred) {
    var boundary := Enclosing(m, Dir(d.owner));
    && boundary.Some?
    && active != boundary.value
    && !IsAncestor(boundary.value, active)
    && !(source.Some? && IsAncestor(boundary.value, source.value))
  }

  function Kept(m: Model, active: Path, source: Option<Path>, ds: seq<Deferred>): seq<Event> {
    if ds == [] then []
    else (if Discards(m, active, source, ds[0]) then [] else [ds[0].event]) + Kept(m, active, source, ds[1..])
  }

  function Dropped(m: Model, active: Path, source: Option<Path>, ds: seq<Deferred>): seq<Event> {
    if ds == [] then []
    else (if Discards(m, active, source, ds[0]) then [ds[0].event] else []) + Dropped(m, active, source, ds[1..])
  }

  function Events(ds: seq<Deferred>): seq<Event> {
    if ds == [] then [] else Events(ds[..|ds| - 1]) + [ds[|ds| - 1].event]
  }

  function Postpone(l: Loop, machine: Machine, owner: Path, e: Event): Loop {
    l.(machine := machine, deferred := l.deferred + [Deferred(owner, e)])
  }

  function PushEvents(s: Machine, es: seq<Event>): Machine {
    s.(world := s.world.(queue := PushAll(s.world.queue, es)))
  }

  /** An event that is not deferred is consumed; a taken transition, internal ones included,
      sends the deferred events back to the queue. */
  function Consume(m: Model, l: Loop, h: Outcome, e: Event): Loop
    requires h.Handled?
  {
    if h.taken.Some? && l.deferred != [] then
      var active, source := h.machine.state, Some(h.taken.value.source);
      Loop(PushEvents(h.machine, Kept(m, active, source, l.deferred)), [],
           l.consumed + [e], l.discarded + Dropped(m, active, source, l.deferred))
    else l.(machine := h.machine, consumed := l.consumed + [e])
  }

  /** Events other than the dispatched one are deferred without trying their guards. */
  function QuickOwner(m: Model, currentId: string, s: Machine, e: Event): Option<Path> {
    if currentId != "" && e.id != currentId then TableOwner(m, s.state, s.state, e.name) else None
  }

  function Iterate(m: Model, env: Env, fuel: nat, currentId: string, l: Loop): Progress {
    var w := Arrive(env, l.machine.world);
    if IsEmpty(w.queue) then Ended(l.(machine := PushEvents(l.machine.(world := w), Events(l.deferred))))
    else
      var popped := Head(w.queue);
      var s := l.machine.(world := w.(queue := Rest(w.queue)));
      var e := StripId(popped);
      var quick := QuickOwner(m, currentId, s, popped);
      if quick.Some? then Running(Postpone(l, s, quick.value, e))
      else
        var h := ProcessEvent(Context(m, env, e), fuel, s);
        if h.Stuck? then Lost
        else if h.owner.Some? then Running(Postpone(l, h.machine, h.owner.value, e))
        else Running(Consume(m, l, h, e))
  }

  function Process(m: Model, env: Env, fuel: nat, turns: nat, currentId: string, l: Loop): Progress
    decreases turns
  {
    if turns == 0 then Running(l)
    else
      var next := Iterate(m, env, fuel, currentId, l);
      if next.Running? then Process(m, env, fuel, turns - 1, currentId, next.loop) else next
  }

  function Begin(s: Machine): Loop {
    Loop(s, [], [], [])
  }

  // ----- the configuration invariant over whole runs -----

  ghost predicate Settled(m: Model, s: Machine) {
    Rests(m, s.world, s.state)
  }

  ghost predicate Follows(before: Machine, after: Machine) {
    Extends(before.world, after.world)
  }

  lemma {:induction false} ChooseFacts(c: Context, w: World, ts: seq<Transition>)
    ensures var (w', t) := Choose(c, w, ts);
            w' == w.(clock := w'.clock) && (t.Some? ==> t.value in ts)
    decreases ts
  {
    if ts != [] {
      ChooseFacts(c, Enabled(c, w, ts[0]).0, ts[1..]);
    }
  }

  ghost predicate Live(m: Model, q: Path, ts: seq<Transition>) {
    forall t :: t in ts ==> t.name in m.transitions && m.transitions[t.name] == t && Reaches(m, t, q)
  }

  lemma {:induction false} UsableLive(m: Model, q: Path, names: seq<Path>)
    requires Structured(m)
    ensures Live(m, q, Usable(m, q, names))
    decreases names
  {
    if names != [] {
      UsableLive(m, q, names[1..]);
    }
  }

  lemma {:induction false} RowLive(m: Model, q: Path, v: Path, e: string)
    requires Structured(m)
    ensures Live(m, q, Row(m, q, v, e))
    decreases |v|
  {
    if v in m.vertices {
      UsableLive(m, q, m.vertices[v].transitions);
    }
    forall t ensures t in Triggered(UsableAt(m, q, v), e) ==> t in UsableAt(m, q, v) {
      TriggeredMembers(UsableAt(m, q, v), e, t);
    }
    if !Defers(m, v, e) && !Outermost(m, v) {
      RowLive(m, q, Dir(v), e);
    }
  }

  lemma {:induction false} WithOwnerMembers(m: Model, ts: seq<Transition>, owner: Option<Path>)
    ensures forall t :: t in WithOwner(m, ts, owner) ==> t in ts
    decreases ts
  {
    if ts != [] {
      WithOwnerMembers(m, ts[1..], owner);
    }
  }

  lemma CandidatesLive(m: Model, q: Path, e: string, owner: Option<Path>)
    requires Structured(m)
    ensures Live(m, q, Candidates(m, q, e, owner))
  {
    RowLive(m, q, q, e);
    WithOwnerMembers(m, Row(m, q, q, e), owner);
  }

  lemma UntakenRow(c: Context, fuel: nat, s: Machine, ts: seq<Transition>)
    ensures var a := TryRow(c, fuel, s, ts); a.Tried? && a.taken.None? ==> a.machine.state == s.state
  {
    hide Fire, Choose;
  }

  ghost predicate GoodAttempt(m: Model, s: Machine, a: Attempt) {
    match a
    case OutOfFuel => true
    case Tried(after, taken) => Settled(m, after) && Follows(s, after) && (taken.None? ==> after.state == s.state)
  }

  lemma TryRowSettles(c: Context, fuel: nat, s: Machine, ts: seq<Transition>)
    requires WellFormed(c.model) && Settled(c.model, s) && Live(c.model, s.state, ts)
    ensures GoodAttempt(c.model, s, TryRow(c, fuel, s, ts))
  {
    hide Fire, Lawful, RecordsOf, Open, ActiveChain;
    ChooseFacts(c, s.world, ts);
    var (w, t) := Choose(c, s.world, ts);
    if t.Some? {
      FireArrives(c, fuel, w, s.state, t.value);
    }
  }

  ghost predicate GoodOutcome(m: Model, s: Machine, h: Outcome) {
    match h
    case Stuck => true
    case Handled(after, taken, owner) =>
      && Settled(m, after) && Follows(s, after)
      && (taken.None? ==> after.state == s.state)
      && (taken.Some? ==> owner.None?)
  }

  /** Handling an event keeps the configuration invariant, and without a transition the
      current element stays. */
  lemma ProcessEventSettles(c: Context, fuel: nat, s: Machine)
    requires WellFormed(c.model) && Settled(c.model, s)
    ensures GoodOutcome(c.model, s, ProcessEvent(c, fuel, s))
  {
    hide TryRow, Candidates, Settled;
    var m, e := c.model, c.event.name;
    var owner := TableOwner(m, s.state, s.state, e);
    CandidatesLive(m, s.state, e, owner);
    CandidatesLive(m, s.state, ANY_EVENT, owner);
    TryRowSettles(c, fuel, s, Candidates(m, s.state, e, owner));
    var specific := TryRow(c, fuel, s, Candidates(m, s.state, e, owner));
    if specific.Tried? && specific.taken.None? {
      TryRowSettles(c, fuel, specific.machine, Candidates(m, s.state, ANY_EVENT, owner));
    }
  }

  lemma QueueDoesNotUnsettle(m: Model, s: Machine, after: Machine)
    requires Settled(m, s) && after.state == s.state
    requires after.world == s.world.(queue := after.world.queue, raised := after.world.raised,
        clock := after.world.clock)
    ensures Settled(m, after) && Follows(s, after)
  {
  }

  ghost predicate GoodProgress(m: Model, l: Loop, next: Progress) {
    next.Running? || next.Ended? ==> Settled(m, next.loop.machine) && Follows(l.machine, next.loop.machine)
  }

  lemma FollowsTransitive(a: Machine, b: Machine, c: Machine)
    requires Follows(a, b) && Follows(b, c)
    ensures Follows(a, c)
  {
  }

  lemma IterateSettles(m: Model, env: Env, fuel: nat, currentId: string, l: Loop)
    requires WellFormed(m) && Settled(m, l.machine)
    ensures GoodProgress(m, l, Iterate(m, env, fuel, currentId, l))
  {
    hide Settled, Follows, ProcessEvent, TableOwner;
    var w := Arrive(env, l.machine.world);
    if IsEmpty(w.queue) {
      QueueDoesNotUnsettle(m, l.machine, PushEvents(l.machine.(world := w), Events(l.deferred)));
    } else {
      var popped := Head(w.queue);
      var s := l.machine.(world := w.(queue := Rest(w.queue)));
      QueueDoesNotUnsettle(m, l.machine, s);
      var e := StripId(popped);
      if QuickOwner(m, currentId, s, popped).None? {
        var h := ProcessEvent(Context(m, env, e), fuel, s);
        ProcessEventSettles(Context(m, env, e), fuel, s);
        if h.Handled? {
          FollowsTransitive(l.machine, s, h.machine);
          if h.owner.None? {
            ConsumeSettles(m, l, h, e);
          }
        }
      }
    }
  }

  lemma ConsumeSettles(m: Model, l: Loop, h: Outcome, e: Event)
    requires h.Handled? && Settled(m, h.machine) && Follows(l.machine, h.machine)
    ensures var after := Consume(m, l, h, e); Settled(m, after.machine) && Follows(l.machine, after.machine)
  {
    hide Settled, Follows;
    QueueDoesNotUnsettle(m, h.machine, Consume(m, l, h, e).machine);
    FollowsTransitive(l.machine, h.machine, Consume(m, l, h, e).machine);
  }

  /** A process run keeps the configuration invariant. */
  lemma {:induction false} ProcessSettles(m: Model, env: Env, fuel: nat, turns: nat, currentId: string, l: Loop)
    requires WellFormed(m) && Settled(m, l.machine)
    ensures GoodProgress(m, l, Process(m, env, fuel, turns, currentId, l))
    decreases turns
  {
    hide Iterate, Settled, Follows;
    if turns == 0 {
      QueueDoesNotUnsettle(m, l.machine, l.machine);
    } else {
      IterateSettles(m, env, fuel, currentId, l);
      var next := Iterate(m, env, fuel, currentId, l);
      if next.Running? {
        ProcessSettles(m, env, fuel, turns - 1, currentId, next.loop);
        var last := Process(m, env, fuel, turns - 1, currentId, next.loop);
        if last.Running? || last.Ended? {
          FollowsTransitive(l.machine, next.loop.machine, last.loop.machine);
        }
      }
    }
  }

  // ----- whole runs -----

  /** Starting enters the root; a finished start is followed by a process run. */
  function Start(m: Model, env: Env, fuel: nat, initial: Event): Option<Machine>
    requires m.root in m.vertices
  {
    var step := Enter(Context(m, env, initial), fuel, World(map[], map[], EMPTY, 0, [], []), m.root, true);
    if step.Ran? && step.at.Some? then Some(Machine(step.at.value, step.world)) else None
  }

  /** One activation of the process loop: some events are dispatched, then the loop runs. */
  datatype Activation = Activation(events: seq<Event>, currentId: string)

  /** The machine after any number of activations; None if one of them did not return
      within the given fuel and turns. */
  function Run(m: Model, env: Env, fuel: nat, turns: nat, s: Machine, activations: seq<Activation>): Option<Machine>
    decreases activations
  {
    if activations == [] then Some(s)
    else
      var a := activations[0];
      var ended := Process(m, env, fuel, turns, a.currentId, Begin(PushEvents(s, a.events)));
      if ended.Ended? then Run(m, env, fuel, turns, ended.loop.machine, activations[1..]) else None
  }

  lemma StartSettles(m: Model, env: Env, fuel: nat, initial: Event)
    requires WellFormed(m)
    ensures var s := Start(m, env, fuel, initial); s.Some? ==> Settled(m, s.value)
  {
    hide Enter;
    var w := World(map[], map[], EMPTY, 0, [], []);
    assert Dir(m.root) == [] && ActiveChain(m, []) == [];
    EnterArrives(Context(m, env, initial), fuel, w, m.root, true);
  }

  lemma {:induction false} RunSettles(m: Model, env: Env, fuel: nat, turns: nat, s: Machine,
          activations: seq<Activation>)
    requires WellFormed(m) && Settled(m, s)
    ensures var after := Run(m, env, fuel, turns, s, activations);
            after.Some? ==> Settled(m, after.value) && Follows(s, after.value)
    decreases activations
  {
    hide Process, Settled, Follows;
    if activations == [] {
      QueueDoesNotUnsettle(m, s, s);
    } else {
      var a := activations[0];
      var begun := PushEvents(s, a.events);
      QueueDoesNotUnsettle(m, s, begun);
      ProcessSettles(m, env, fuel, turns, a.currentId, Begin(begun));
      var ended := Process(m, env, fuel, turns, a.currentId, Begin(begun));
      if ended.Ended? {
        RunSettles(m, env, fuel, turns, ended.loop.machine, activations[1..]);
        var after := Run(m, env, fuel, turns, s, activations);
        if after.Some? {
          FollowsTransitive(s, begun, ended.loop.machine);
          FollowsTransitive(s, ended.loop.machine, after.value);
        }
      }
    }
  }

  /** The whole-run configuration invariant: after the start and after every activation, the
      states entered and not yet left are exactly the states on the chain from the root to the
      current element, and no state was ever entered or left out of turn. */
  lemma WholeRunConfiguration(m: Model, env: Env, fuel: nat, turns: nat, initial: Event, activations: seq<Activation>)
    requires WellFormed(m) && Start(m, env, fuel, initial).Some?
    ensures var after := Run(m, env, fuel, turns, Start(m, env, fuel, initial).value, activations);
            after.Some? ==>
              && after.value.state in m.vertices
              && Open(after.value.world.trace) == ActiveChain(m, after.value.state)
              && Lawful(m, after.value.world.trace)
  {
    StartSettles(m, env, fuel, initial);
    RunSettles(m, env, fuel, turns, Start(m, env, fuel, initial).value, activations);
  }
}
