/** Run-to-completion semantics: what entering an element and firing a transition do.
    Guards, behaviours and other goroutines are uninterpreted functions of a logical clock,
    so every statement about these functions holds for all of their behaviours. */
module Semantics {
  import opened Options
  import opened Paths
  import opened Models
  import opened PathCompiler
  import opened EventQueue

  /** What the runtime does, in order. `Entered` and `Exited` also run the state's own
      entry, exit and activity behaviours; `Recorded` is the history recording of a
      transition that leaves `state`. */
  datatype Act =
    | Entered(state: Path)
    | Exited(state: Path)
    | Effect(transition: Path)
    | Recorded(state: Path, skip: Option<Path>)

  datatype Env = Env(
    guard: (string, Event, nat) -> bool,
    raise: (Act, Event, nat) -> seq<Event>,
    arrive: nat -> seq<Event>)

  /** The mutable part of a machine apart from its current element, and what it did so far. */
  datatype World = World(
    shallow: map<Path, Path>,
    deep: map<Path, Path>,
    queue: Pending,
    clock: nat,
    trace: seq<Act>,
    raised: seq<Event>)

  datatype Context = Context(model: Model, env: Env, event: Event)

  /** `Ran(w, None)` is the source's nil result. `Diverged` is running out of fuel, the bound
      on nested `Enter` calls: the source would not have returned yet. */
  datatype Result = Diverged | Ran(world: World, at: Option<Path>)

  function Perform(c: Context, w: World, act: Act): World {
    var raised := c.env.raise(act, c.event, w.clock);
    w.(trace := w.trace + [act],
       clock := w.clock + 1,
       queue := PushAll(w.queue, raised),
       raised := w.raised + raised)
  }

  function FinalCompletion(p: Path): Event {
    Event(FINAL_EVENT, true, "", p, 0)
  }

  /** A final state has no behaviours of its own: it announces its completion. */
  function EnterFinal(w: World, p: Path): World {
    w.(trace := w.trace + [Entered(p)],
       queue := Push(w.queue, FinalCompletion(p)),
       raised := w.raised + [FinalCompletion(p)])
  }

  function Exit(c: Context, w: World, p: Path): World
    requires p in c.model.vertices
  {
    var k := c.model.vertices[p].kind;
    if IsComposite(k) then Perform(c, w, Exited(p))
    else if k.Final? then w.(trace := w.trace + [Exited(p)])
    else w
  }

  function Enabled(c: Context, w: World, t: Transition): (World, bool) {
    if t.guard.None? then (w, true)
    else (w.(clock := w.clock + 1), c.env.guard(t.guard.value, c.event, w.clock))
  }

  function FirstEnabled(c: Context, w: World, names: seq<Path>): (World, Option<Transition>)
    decreases names
  {
    if names == [] then (w, None)
    else if names[0] !in c.model.transitions then FirstEnabled(c, w, names[1..])
    else
      var t := c.model.transitions[names[0]];
      var (w', matches) := Enabled(c, w, t);
      if matches then (w', Some(t)) else FirstEnabled(c, w', names[1..])
  }

  // ----- history -----

  /** What leaving `stateName` records for the history vertices of kind `k` around it. */
  function Targets(m: Model, stateName: Path, skip: Option<Path>, k: VertexKind): map<Path, Path> {
    map parent | parent in m.vertices
      && IsAncestor(parent, stateName)
      && IsState(m.vertices[parent].kind)
      && skip != Some(parent)
      && HasHistory(m, parent, k)
      :: if k.ShallowHistory? then stateName[..|parent| + 1] else stateName
  }

  function Record(m: Model, w: World, stateName: Path, skip: Option<Path>): World {
    if HasState(m, stateName) then
      w.(shallow := w.shallow + Targets(m, stateName, skip, ShallowHistory),
         deep := w.deep + Targets(m, stateName, skip, DeepHistory),
         trace := w.trace + [Recorded(stateName, skip)])
    else w
  }

  function Recall(w: World, k: VertexKind, parent: Path): Option<Path> {
    var records := if k.ShallowHistory? then w.shallow else w.deep;
    if parent in records && IsAncestor(parent, records[parent]) then Some(records[parent]) else None
  }

  function HistoryPath(m: Model, parent: Path, target: Path): seq<Path> {
    if HasState(m, target) && IsAncestor(parent, target) then EnterPath(m.root, parent, target) else []
  }

  function HistoryOwner(m: Model, t: Transition): Option<Path> {
    if t.target.Some? && t.target.value in m.vertices && IsHistory(m.vertices[t.target.value].kind)
    then Some(Dir(t.target.value)) else None
  }

  // ----- entering and firing -----

  function InitialTransition(m: Model, p: Path): Option<Transition>
    requires p in m.vertices
  {
    var initial := m.vertices[p].initial;
    if initial.Some? && initial.value in m.vertices
       && m.vertices[initial.value].transitions != []
       && m.vertices[initial.value].transitions[0] in m.transitions
    then Some(m.transitions[m.vertices[initial.value].transitions[0]])
    else None
  }

  function Enter(c: Context, fuel: nat, w: World, p: Path, byDefault: bool): Result
    requires p in c.model.vertices
    decreases fuel, 0, 0
  {
    var v := c.model.vertices[p];
    if fuel == 0 then Diverged
    else if IsComposite(v.kind) then
      var w1 := Perform(c, w, Entered(p));
      var initial := InitialTransition(c.model, p);
      if byDefault && initial.Some? then Fire(c, fuel - 1, w1, p, initial.value)
      else Ran(w1, Some(p))
    else if v.kind.Choice? then
      var (w1, t) := FirstEnabled(c, w, v.transitions);
      if t.Some? then Fire(c, fuel - 1, w1, p, t.value) else Ran(w1, None)
    else if IsHistory(v.kind) then
      var recorded := Recall(w, v.kind, Dir(p));
      var path := if recorded.Some? then HistoryPath(c.model, Dir(p), recorded.value) else [];
      if recorded.None? then EnterUnrecorded(c, fuel - 1, w, p)
      else if path == [] then Ran(w, Some(p))
      else EnterRecorded(c, fuel - 1, w, path, v.kind.ShallowHistory?)
    else if v.kind.Final? then Ran(EnterFinal(w, p), Some(p))
    else Ran(w, None)
  }

  /** A history vertex with nothing recorded: its default transitions, then its owner's
      initial transition, then the vertex itself. */
  function EnterUnrecorded(c: Context, fuel: nat, w: World, history: Path): Result
    requires history in c.model.vertices
    decreases fuel, 3, 0
  {
    var (w1, t) := FirstEnabled(c, w, c.model.vertices[history].transitions);
    var followed := if t.Some? then Fire(c, fuel, w1, history, t.value) else Ran(w1, None);
    if followed.Diverged? || followed.at.Some? then followed
    else
      var owner := Dir(history);
      var initial := if HasState(c.model, owner) then InitialTransition(c.model, owner) else None;
      if initial.Some? then Fire(c, fuel, followed.world, owner, initial.value)
      else Ran(followed.world, Some(history))
  }

  /** Down a recorded path; only the last state of a shallow record is entered by default. */
  function EnterRecorded(c: Context, fuel: nat, w: World, path: seq<Path>, shallow: bool): Result
    requires path != []
    decreases fuel, 1, |path|
  {
    if path[0] !in c.model.vertices then Ran(w, None)
    else
      var step := Enter(c, fuel, w, path[0], shallow && |path| == 1);
      if step.Diverged? || |path| == 1 then step
      else EnterRecorded(c, fuel, step.world, path[1..], shallow)
  }

  function ExitAll(c: Context, w: World, exit: seq<Path>): (World, bool)
    decreases exit
  {
    if exit == [] then (w, true)
    else if exit[0] !in c.model.vertices then (w, false)
    else ExitAll(c, Exit(c, w, exit[0]), exit[1..])
  }

  function EnterAll(c: Context, fuel: nat, w: World, enter: seq<Path>, target: Option<Path>): Result
    decreases fuel, 1, |enter|
  {
    if enter == [] then
      Ran(w, if target.Some? && target.value in c.model.vertices then target else None)
    else if enter[0] !in c.model.vertices then Ran(w, None)
    else
      var byDefault := Some(enter[0]) == target;
      var step := Enter(c, fuel, w, enter[0], byDefault);
      if step.Diverged? || step.at.None? || byDefault then step
      else EnterAll(c, fuel, step.world, enter[1..], target)
  }

  /** The transition executor: record history, leave, run the effects, enter. */
  function Fire(c: Context, fuel: nat, w: World, current: Path, t: Transition): Result
    decreases fuel, 2, 0
  {
    if !Reaches(c.model, t, current) then Ran(w, None)
    else
      var route := RouteOf(c.model, t, current);
      var w1 := if route.exit != [] then Record(c.model, w, current, HistoryOwner(c.model, t)) else w;
      var (w2, left) := ExitAll(c, w1, route.exit);
      if !left then Ran(w2, None)
      else
        var w3 := Perform(c, w2, Effect(t.name));
        if t.kind.Internal? then Ran(w3, Some(current))
        else EnterAll(c, fuel, w3, route.enter, t.target)
  }

  /** More fuel never changes a result, so the results do not depend on the bound. */
  lemma {:induction false} MoreFuelForEnter(c: Context, fuel: nat, more: nat, w: World, p: Path, byDefault: bool)
    requires p in c.model.vertices && fuel <= more
    requires Enter(c, fuel, w, p, byDefault).Ran?
    ensures Enter(c, more, w, p, byDefault) == Enter(c, fuel, w, p, byDefault)
    decreases fuel, 0, 0
  {
    hide Fire, EnterAll, EnterRecorded, EnterUnrecorded, FirstEnabled, Perform, HistoryPath;
    var v := c.model.vertices[p];
    if IsComposite(v.kind) {
      var initial := InitialTransition(c.model, p);
      if byDefault && initial.Some? {
        MoreFuelForFire(c, fuel - 1, more - 1, Perform(c, w, Entered(p)), p, initial.value);
      }
    } else if v.kind.Choice? {
      var (w1, t) := FirstEnabled(c, w, v.transitions);
      if t.Some? {
        MoreFuelForFire(c, fuel - 1, more - 1, w1, p, t.value);
      }
    } else if IsHistory(v.kind) {
      var recorded := Recall(w, v.kind, Dir(p));
      if recorded.None? {
        MoreFuelForUnrecorded(c, fuel - 1, more - 1, w, p);
      } else {
        var path := HistoryPath(c.model, Dir(p), recorded.value);
        if path != [] {
          MoreFuelForRecorded(c, fuel - 1, more - 1, w, path, v.kind.ShallowHistory?);
        }
      }
    }
  }

  lemma {:induction false} MoreFuelForUnrecorded(c: Context, fuel: nat, more: nat, w: World, history: Path)
    requires history in c.model.vertices && fuel <= more
    requires EnterUnrecorded(c, fuel, w, history).Ran?
    ensures EnterUnrecorded(c, more, w, history) == EnterUnrecorded(c, fuel, w, history)
    decreases fuel, 3, 0
  {
    var (w1, t) := FirstEnabled(c, w, c.model.vertices[history].transitions);
    if t.Some? {
      MoreFuelForFire(c, fuel, more, w1, history, t.value);
    }
    var followed := if t.Some? then Fire(c, fuel, w1, history, t.value) else Ran(w1, None);
    var owner := Dir(history);
    var initial := if HasState(c.model, owner) then InitialTransition(c.model, owner) else None;
    if followed.at.None? && initial.Some? {
      MoreFuelForFire(c, fuel, more, followed.world, owner, initial.value);
    }
  }

  lemma {:induction false} MoreFuelForRecorded(c: Context, fuel: nat, more: nat, w: World, path: seq<Path>,
          shallow: bool)
    requires path != [] && fuel <= more
    requires EnterRecorded(c, fuel, w, path, shallow).Ran?
    ensures EnterRecorded(c, more, w, path, shallow) == EnterRecorded(c, fuel, w, path, shallow)
    decreases fuel, 1, |path|
  {
    if path[0] in c.model.vertices {
      MoreFuelForEnter(c, fuel, more, w, path[0], shallow && |path| == 1);
      var step := Enter(c, fuel, w, path[0], shallow && |path| == 1);
      if |path| > 1 {
        MoreFuelForRecorded(c, fuel, more, step.world, path[1..], shallow);
      }
    }
  }

  lemma {:induction false} MoreFuelForAll(c: Context, fuel: nat, more: nat, w: World, enter: seq<Path>,
          target: Option<Path>)
    requires fuel <= more
    requires EnterAll(c, fuel, w, enter, target).Ran?
    ensures EnterAll(c, more, w, enter, target) == EnterAll(c, fuel, w, enter, target)
    decreases fuel, 1, |enter|
  {
    if enter != [] && enter[0] in c.model.vertices {
      var byDefault := Some(enter[0]) == target;
      MoreFuelForEnter(c, fuel, more, w, enter[0], byDefault);
      var step := Enter(c, fuel, w, enter[0], byDefault);
      if step.at.Some? && !byDefault {
        MoreFuelForAll(c, fuel, more, step.world, enter[1..], target);
      }
    }
  }

  lemma {:induction false} MoreFuelForFire(c: Context, fuel: nat, more: nat, w: World, current: Path, t: Transition)
    requires fuel <= more
    requires Fire(c, fuel, w, current, t).Ran?
    ensures Fire(c, more, w, current, t) == Fire(c, fuel, w, current, t)
    decreases fuel, 2, 0
  {
    if Reaches(c.model, t, current) {
      var route := RouteOf(c.model, t, current);
      var w1 := if route.exit != [] then Record(c.model, w, current, HistoryOwner(c.model, t)) else w;
      var (w2, left) := ExitAll(c, w1, route.exit);
      if left && !t.kind.Internal? {
        MoreFuelForAll(c, fuel, more, Perform(c, w2, Effect(t.name)), route.enter, t.target);
      }
    }
  }
}
