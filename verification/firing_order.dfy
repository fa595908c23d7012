/** What firing and entering do, in order: record, leave innermost first, run the effect, enter
    outermost first, and then whichever transition is taken by default. */
module FiringOrder {
  import opened Options
  import opened Paths
  import opened Models
  import opened PathCompiler
  import opened EventQueue
  import opened Semantics
  import opened Configuration
  import opened History
  import opened RunToCompletion
  import opened Guards
  import opened Ledger

  /** Leaving the states from `p` up to depth `low`, innermost first. */
  function Leavings(m: Model, low: nat, p: Path): seq<Act>
    decreases |p|
  {
    if |p| <= low then [] else (if HasState(m, p) then [Exited(p)] else []) + Leavings(m, low, Dir(p))
  }

  /** What happens before anything is entered: a state that is left records history first. */
  function Departure(m: Model, current: Path, low: nat, t: Transition): seq<Act> {
    (if HasState(m, current) then [Recorded(current, HistoryOwner(m, t))] else [])
    + Leavings(m, low, current) + [Effect(t.name)]
  }

  /** The transition leaves something: its source's initial vertex, or vertices below its pivot. */
  predicate LeavesSomething(m: Model, current: Path, t: Transition)
    requires t.target.Some?
  {
    FromInitial(m, t) || Pivot(t) < |current|
  }

  lemma {:induction false} ExitAllOrder(c: Context, w: World, low: nat, p: Path)
    requires Nested(c.model) && p in c.model.vertices && low <= |p|
    ensures var (w', left) := ExitAll(c, w, Reverse(Chain(low, p)));
            left && w'.trace == w.trace + Leavings(c.model, low, p)
    decreases |p|
  {
    hide Exit, ExitAll, Chain, Reverse;
    if low == |p| {
      LeavesNobody(c, w, p);
    } else {
      LeavingStep(low, p);
      LeavesFirst(c, w, p, Reverse(Chain(low, Dir(p))));
      var w1 := Exit(c, w, p);
      ExitTrace(c, w, p);
      if low == |p| - 1 {
        LeavesNobody(c, w1, Dir(p));
      } else {
        assert Owned(c.model, p) && p != c.model.root;
        ExitAllOrder(c, w1, low, Dir(p));
      }
    }
  }

  lemma ExitTrace(c: Context, w: World, p: Path)
    requires p in c.model.vertices
    ensures Exit(c, w, p).trace == w.trace + if HasState(c.model, p) then [Exited(p)] else []
  {
  }

  /** Up to and including the effect of a transition that leaves something. */
  lemma DepartureOrder(c: Context, w: World, current: Path, t: Transition)
    requires Nested(c.model) && ValidTransition(c.model, t) && t.target.Some?
    requires Reaches(c.model, t, current) && LeavesSomething(c.model, current, t)
    ensures Departed(c, w, current, t).trace == w.trace + Departure(c.model, current, Pivot(t), t)
  {
    hide Reverse, Chain, ExitPath, EnterPath, EnterList, ExitList, LCA, ExitAll, Exit, Record, Targets, Perform;
    hide CommonAncestor, InferredKind, Leavings;
    var m, route := c.model, RouteOf(c.model, t, current);
    var w1 := Record(m, w, current, HistoryOwner(m, t));
    ReachedIsVertex(m, t, current);
    RecordTrace(m, w, current, HistoryOwner(m, t));
    if FromInitial(m, t) {
      InitialPivot(m, t);
      LeavesInitial(c, w1, t.source);
      NoLeavings(m, Pivot(t), current);
    } else {
      ExitListIsReversedChain(m, t, current);
      ExitAllOrder(c, w1, Pivot(t), current);
    }
    PerformTrace(c, ExitAll(c, w1, route.exit).0, Effect(t.name));
  }

  lemma RecordTrace(m: Model, w: World, s: Path, skip: Option<Path>)
    ensures Record(m, w, s, skip).trace == w.trace + if HasState(m, s) then [Recorded(s, skip)] else []
  {
  }

  lemma PerformTrace(c: Context, w: World, act: Act)
    ensures Perform(c, w, act).trace == w.trace + [act]
  {
  }

  lemma NoLeavings(m: Model, low: nat, p: Path)
    requires |p| <= low
    ensures Leavings(m, low, p) == []
  {
  }

  lemma LeavesInitial(c: Context, w: World, p: Path)
    requires p in c.model.vertices && c.model.vertices[p].kind.Initial?
    ensures ExitAll(c, w, [p]) == (w, true)
  {
    assert [p][1..] == [];
  }

  /** From rest a transition with a target records, leaves, runs its effect and enters the states on
      the way, in that order, and then enters its target by default; one aimed at an enclosing
      state stops there without entering it. */
  lemma FiringInOrder(c: Context, fuel: nat, w: World, current: Path, t: Transition)
    requires Structured(c.model) && t.name in c.model.transitions && c.model.transitions[t.name] == t
    requires t.target.Some? && t.target.value in c.model.vertices
    requires Rests(c.model, w, current) && Reaches(c.model, t, current) && fuel > 0
    requires LeavesSomething(c.model, current, t)
    ensures Pivot(t) <= |t.target.value|
    ensures var (g, acts) := (t.target.value, w.trace + Departure(c.model, current, Pivot(t), t));
            var step := Fire(c, fuel, w, current, t);
            if Pivot(t) == |g| then step.Ran? && step.at == Some(g) && step.world.trace == acts
            else EntersLast(c, fuel, g, acts + Entries(Chain(Pivot(t), Dir(g))), step)
  {
    hide Enter, Fire, EnterAll, EnterUnrecorded, EnterRecorded;
    hide RouteOf, ExitAll, Lawful, RecordsOf, Open, ActiveChain, Departed, EnterStates, UpToTarget, Chain, Departure;
    var m, g, low := c.model, t.target.value, Pivot(t);
    assert ValidTransition(m, t) && Owned(m, g);
    Departs(c, fuel, w, current, t);
    DepartureOrder(c, w, current, t);
    var w' := Departed(c, w, current, t);
    EnterListIsChain(m, t);
    EntersList(m, t, current);
    StopsAtTarget(c, fuel, w', EnterList(m, t), g);
    if low == |g| {
      EmptyChain(low, g);
      EntersAll(c, fuel, w', [], g);
    } else {
      ChainOfOwner(m, low, g);
      EntersOnTheWay(c, fuel, w', low, g);
      EnterStatesTrace(c, w', Chain(low, Dir(g)));
      var w2 := EnterStates(c, w', Chain(low, Dir(g)));
      assert w2.trace == w.trace + Departure(m, current, low, t) + Entries(Chain(low, Dir(g)));
    }
  }

  /** The step is what entering `g` by default comes to, after exactly those acts. */
  ghost predicate EntersLast(c: Context, fuel: nat, g: Path, acts: seq<Act>, step: Result)
    requires g in c.model.vertices
  {
    exists w: World :: w.trace == acts && step == Enter(c, fuel, w, g, true)
  }

  lemma EmptyChain(low: nat, p: Path)
    requires |p| <= low
    ensures Chain(low, p) == []
  {
  }

  lemma ChainOfOwner(m: Model, low: nat, g: Path)
    requires Nested(m) && g in m.vertices && low < |g|
    ensures forall q :: q in Chain(low, Dir(g)) ==> q in m.vertices
  {
    assert Owned(m, g);
    if g != m.root {
      ChainOfVertices(m, low, Dir(g));
    } else {
      EmptyChain(low, Dir(g));
    }
  }

  lemma ReachedIsVertex(m: Model, t: Transition, current: Path)
    requires Nested(m) && Reaches(m, t, current)
    ensures current in m.vertices
  {
    assert Owned(m, t.source);
  }

  /** A transition without a target runs its effect and nothing else. */
  lemma InternalInOrder(c: Context, fuel: nat, w: World, current: Path, t: Transition)
    requires ValidTransition(c.model, t) && t.target.None? && Reaches(c.model, t, current)
    ensures var step := Fire(c, fuel, w, current, t);
            step.Ran? && step.at == Some(current) && step.world.trace == w.trace + [Effect(t.name)]
  {
    FiresInternal(c, fuel, w, current, t);
  }

  /** A transition to a state without an initial transition: the whole trace. */
  lemma FiringToSimpleState(c: Context, fuel: nat, w: World, current: Path, t: Transition)
    requires Structured(c.model) && t.name in c.model.transitions && c.model.transitions[t.name] == t
    requires t.target.Some? && HasState(c.model, t.target.value)
    requires IsComposite(c.model.vertices[t.target.value].kind) ==>
               InitialTransition(c.model, t.target.value).None?
    requires Rests(c.model, w, current) && Reaches(c.model, t, current) && fuel > 0
    requires LeavesSomething(c.model, current, t) && Pivot(t) < |t.target.value|
    ensures var (g, step) := (t.target.value, Fire(c, fuel, w, current, t));
            && step.Ran? && step.at == Some(g)
            && step.world.trace == w.trace + Departure(c.model, current, Pivot(t), t) + Entries(Chain(Pivot(t), g))
  {
    hide Fire, EnterAll, EnterUnrecorded, EnterRecorded, Departure, Chain, Entries;
    FiringInOrder(c, fuel, w, current, t);
    var g, low := t.target.value, Pivot(t);
    EntriesNext(low, g);
  }

  lemma EntriesNext(low: nat, g: Path)
    requires low < |g|
    ensures Entries(Chain(low, g)) == Entries(Chain(low, Dir(g))) + [Entered(g)]
  {
    EntriesSnoc(Chain(low, Dir(g)), g);
  }

  lemma {:induction false} EntriesSnoc(path: seq<Path>, p: Path)
    ensures Entries(path + [p]) == Entries(path) + [Entered(p)]
    decreases path
  {
    if path == [] {
      assert [p][1..] == [] && Entries([]) == [];
    } else {
      assert (path + [p])[1..] == path[1..] + [p];
      EntriesSnoc(path[1..], p);
    }
  }

  // ----- what is taken by default -----

  /** The acts happened first, if the step returned. */
  ghost predicate Starts(w: World, acts: seq<Act>, step: Result) {
    step.Ran? ==> w.trace + acts <= step.world.trace
  }

  lemma EntryExtends(c: Context, fuel: nat, w: World, p: Path, byDefault: bool)
    requires p in c.model.vertices
    ensures Starts(w, [], Enter(c, fuel, w, p, byDefault))
  {
    hide Enter;
    EnterExplained(c, fuel, w, p, byDefault);
    var step := Enter(c, fuel, w, p, byDefault);
    if step.Ran? {
      var log :| Explains(c, w, log, step.world);
      assert w.trace + [] == w.trace;
    }
  }

  lemma FiringStarts(c: Context, fuel: nat, w: World, current: Path, t: Transition)
    requires Structured(c.model) && t.name in c.model.transitions && c.model.transitions[t.name] == t
    requires t.target.Some? && t.target.value in c.model.vertices
    requires Rests(c.model, w, current) && Reaches(c.model, t, current)
    requires LeavesSomething(c.model, current, t)
    ensures Starts(w, Departure(c.model, current, Pivot(t), t), Fire(c, fuel, w, current, t))
  {
    hide Enter, EnterAll, Departure, RouteOf, Departed, Lawful, RecordsOf, Open, ActiveChain, ExitAll;
    assert ValidTransition(c.model, t);
    Departs(c, fuel, w, current, t);
    DepartureOrder(c, w, current, t);
    var enter := RouteOf(c.model, t, current).enter;
    EnterAllExplained(c, fuel, Departed(c, w, current, t), enter, t.target);
    var step := EnterAll(c, fuel, Departed(c, w, current, t), enter, t.target);
    if step.Ran? {
      var log :| Explains(c, Departed(c, w, current, t), log, step.world);
    }
  }

  /** Entering a composite by default runs the effect of its initial transition next. */
  lemma InitialIsFollowed(c: Context, fuel: nat, w: World, p: Path)
    requires Structured(c.model) && p in c.model.vertices && IsComposite(c.model.vertices[p].kind)
    requires ReadyToEnter(c.model, w, p) && InitialTransition(c.model, p).Some?
    requires AimsAtVertex(c.model, InitialTransition(c.model, p).value)
    ensures var t := InitialTransition(c.model, p).value;
            Starts(w, [Entered(p), Recorded(p, HistoryOwner(c.model, t)), Effect(t.name)], Enter(c, fuel, w, p, true))
  {
    hide Enter, Fire, Lawful, RecordsOf, Open, ActiveChain, InitialTransition;
    var m, t := c.model, InitialTransition(c.model, p).value;
    InitialFacts(m, p);
    assert ValidTransition(m, t);
    EntersState(c, fuel, w, p, true);
    if fuel > 0 {
      var w1 := Perform(c, w, Entered(p));
      ActKeepsCoherent(m, w, Entered(p), w1);
      InitialPivot(m, t);
      FiringStarts(c, fuel - 1, w1, p, t);
      assert Leavings(m, Pivot(t), p) == [];
      assert Departure(m, p, Pivot(t), t) == [Recorded(p, HistoryOwner(m, t)), Effect(t.name)];
      assert w.trace + [Entered(p), Recorded(p, HistoryOwner(m, t)), Effect(t.name)]
             == w1.trace + Departure(m, p, Pivot(t), t);
    }
  }

  /** A branch of a pseudostate leaves at least the pseudostate. */
  lemma BranchLeaves(m: Model, p: Path, t: Transition)
    requires Structured(m) && p in m.vertices && t.name in m.vertices[p].transitions
    requires m.vertices[p].kind.Choice? || IsHistory(m.vertices[p].kind)
    requires t.name in m.transitions && m.transitions[t.name] == t && AimsAtVertex(m, t)
    ensures t.target.Some? && t.source == p && ValidTransition(m, t) && Reaches(m, t, p)
    ensures !FromInitial(m, t) && LeavesSomething(m, p, t)
  {
    assert ValidVertex(m, p) && Owned(m, p);
    assert ValidTransition(m, t) && Owned(m, t.target.value);
    LCAIsLongestCommonPrefix(p, t.target.value);
    if !FromSelf(t) && |LCA(p, t.target.value)| == |p| {
      PrefixesAreComposite(m, t.target.value, |p|);
    }
  }

  /** Entering a choice runs the effect of the branch that is first enabled in its turn. */
  lemma ChoiceTakesFirst(c: Context, fuel: nat, w: World, p: Path, t: Transition)
    requires Structured(c.model) && p in c.model.vertices && c.model.vertices[p].kind.Choice?
    requires ReadyToEnter(c.model, w, p) && AimsAtVertex(c.model, t)
    requires IsFirst(c, w, c.model.vertices[p].transitions, t)
    ensures t.target.Some?
    ensures Starts(w, Leavings(c.model, Pivot(t), p) + [Effect(t.name)], Enter(c, fuel, w, p, true))
  {
    hide Enter, Fire, Lawful, RecordsOf, Open, ActiveChain, FirstEnabled, IsFirst, Leavings;
    var m, names := c.model, c.model.vertices[p].transitions;
    FirstEnabledExactly(c, w, names);
    ChoiceNames(m);
    FirstEnabledFacts(c, w, names);
    FirstEnabledTicks(c, w, names);
    BranchLeaves(m, p, t);
    PseudostateChain(m, p);
    if fuel > 0 {
      var w1 := FirstEnabled(c, w, names).0;
      EntersChoice(c, fuel, w, p, true);
      FiringStarts(c, fuel - 1, w1, p, t);
      assert Departure(m, p, Pivot(t), t) == Leavings(m, Pivot(t), p) + [Effect(t.name)];
    } else {
      NoFuel(c, w, p, true);
    }
  }

  lemma NoFuel(c: Context, w: World, p: Path, byDefault: bool)
    requires p in c.model.vertices
    ensures Enter(c, 0, w, p, byDefault).Diverged?
  {
  }

  lemma ChoiceNames(m: Model)
    requires Structured(m)
    ensures forall n :: n in m.transitions ==> m.transitions[n].name == n
  {
  }

  /** Entering a history vertex without a record runs the effect of its first enabled default. */
  lemma HistoryTakesDefault(c: Context, fuel: nat, w: World, p: Path, byDefault: bool, t: Transition)
    requires Structured(c.model) && p in c.model.vertices && IsHistory(c.model.vertices[p].kind)
    requires ReadyToEnter(c.model, w, p) && AimsAtVertex(c.model, t)
    requires Recall(w, c.model.vertices[p].kind, Dir(p)).None?
    requires IsFirst(c, w, c.model.vertices[p].transitions, t)
    ensures t.target.Some?
    ensures Starts(w, Leavings(c.model, Pivot(t), p) + [Effect(t.name)], Enter(c, fuel, w, p, byDefault))
  {
    hide Enter, Fire, Lawful, RecordsOf, Open, ActiveChain, FirstEnabled, IsFirst, Leavings, EnterUnrecorded;
    var m, names := c.model, c.model.vertices[p].transitions;
    FirstEnabledExactly(c, w, names);
    ChoiceNames(m);
    FirstEnabledFacts(c, w, names);
    FirstEnabledTicks(c, w, names);
    BranchLeaves(m, p, t);
    PseudostateChain(m, p);
    if fuel == 0 {
      NoFuel(c, w, p, byDefault);
    } else {
      var w1 := FirstEnabled(c, w, names).0;
      EntersHistory(c, fuel, w, p, byDefault);
      FiringStarts(c, fuel - 1, w1, p, t);
      assert Departure(m, p, Pivot(t), t) == Leavings(m, Pivot(t), p) + [Effect(t.name)];
      DefaultThenMore(c, fuel - 1, w, p);
    }
  }

  /** Whatever follows a default that gave up comes after it. */
  lemma DefaultThenMore(c: Context, fuel: nat, w: World, history: Path)
    requires history in c.model.vertices
    ensures var (w1, t) := FirstEnabled(c, w, c.model.vertices[history].transitions);
            t.Some? ==>
              var first, step := Fire(c, fuel, w1, history, t.value), EnterUnrecorded(c, fuel, w, history);
              step.Ran? ==> first.Ran? && first.world.trace <= step.world.trace
  {
    hide Enter, Fire, EnterAll, EnterRecorded, FirstEnabled;
    var (w1, t) := FirstEnabled(c, w, c.model.vertices[history].transitions);
    if t.Some? {
      var first := Fire(c, fuel, w1, history, t.value);
      var owner := Dir(history);
      var initial := if HasState(c.model, owner) then InitialTransition(c.model, owner) else None;
      if first.Ran? && first.at.None? && initial.Some? {
        FireExplained(c, fuel, first.world, owner, initial.value);
        var second := Fire(c, fuel, first.world, owner, initial.value);
        if second.Ran? {
          var log :| Explains(c, first.world, log, second.world);
        }
      }
    }
  }

  /** Without a record or an enabled default, the owner's initial transition is next, and without
      that the machine stays at the vertex. */
  lemma HistoryFallsBack(c: Context, fuel: nat, w: World, p: Path, byDefault: bool)
    requires Structured(c.model) && p in c.model.vertices && IsHistory(c.model.vertices[p].kind)
    requires ReadyToEnter(c.model, w, p) && fuel > 0
    requires Recall(w, c.model.vertices[p].kind, Dir(p)).None?
    requires NoneBefore(c, w, c.model.vertices[p].transitions, |c.model.vertices[p].transitions|)
    ensures Dir(p) in c.model.vertices
    ensures var (initial, step) := (InitialTransition(c.model, Dir(p)), Enter(c, fuel, w, p, byDefault));
            if initial.None? then step.Ran? && step.at == Some(p) && step.world.trace == w.trace
            else
              AimsAtVertex(c.model, initial.value) ==>
                Starts(w, [Recorded(Dir(p), HistoryOwner(c.model, initial.value)), Effect(initial.value.name)], step)
  {
    hide Enter, Fire, Lawful, RecordsOf, Open, ActiveChain, FirstEnabled, EnterUnrecorded, InitialTransition;
    var m, names, owner := c.model, c.model.vertices[p].transitions, Dir(p);
    assert Owned(m, p);
    FirstEnabledExactly(c, w, names);
    FirstEnabledTicks(c, w, names);
    PseudostateChain(m, p);
    EntersHistory(c, fuel, w, p, byDefault);
    FollowsInitial(c, fuel - 1, w, p);
    var initial, w1 := InitialTransition(m, owner), FirstEnabled(c, w, names).0;
    if initial.Some? && AimsAtVertex(m, initial.value) {
      var t := initial.value;
      InitialFacts(m, owner);
      assert ValidTransition(m, t);
      InitialPivot(m, t);
      FiringStarts(c, fuel - 1, w1, owner, t);
      assert Leavings(m, Pivot(t), owner) == [];
      assert Departure(m, owner, Pivot(t), t) == [Recorded(owner, HistoryOwner(m, t)), Effect(t.name)];
    }
  }

  /** Entering a final state queues its completion event, and does nothing else. */
  lemma FinalStateCompletes(c: Context, fuel: nat, w: World, p: Path, byDefault: bool)
    requires p in c.model.vertices && c.model.vertices[p].kind.Final? && fuel > 0
    ensures var (step, done) := (Enter(c, fuel, w, p, byDefault), Event("hsm/final", true, "", p, 0));
            && step.Ran? && step.at == Some(p)
            && step.world.queue == Pending(w.queue.completions + [done], w.queue.regular)
            && step.world.trace == w.trace + [Entered(p)] && step.world.raised == w.raised + [done]
            && step.world.shallow == w.shallow && step.world.deep == w.deep
  {
  }

  /** Starting enters the root, and the effect of its initial transition is next. */
  lemma StartFollowsInitial(m: Model, env: Env, fuel: nat, initial: Event)
    requires Structured(m) && InitialTransition(m, m.root).Some?
    requires AimsAtVertex(m, InitialTransition(m, m.root).value) && Start(m, env, fuel, initial).Some?
    ensures var (t, s) := (InitialTransition(m, m.root).value, Start(m, env, fuel, initial).value);
            [Entered(m.root), Recorded(m.root, HistoryOwner(m, t)), Effect(t.name)] <= s.world.trace
  {
    hide Enter, InitialTransition;
    var w := World(map[], map[], EMPTY, 0, [], []);
    assert Dir(m.root) == [] && ActiveChain(m, []) == [];
    InitialIsFollowed(Context(m, env, initial), fuel, w, m.root);
    var acts := [Entered(m.root), Recorded(m.root, HistoryOwner(m, InitialTransition(m, m.root).value)),
                 Effect(InitialTransition(m, m.root).value.name)];
    assert w.trace + acts == acts;
  }
}
