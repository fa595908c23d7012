/** When firing a transition fails to arrive: the condition on targets is exact. */
module LandingCondition {
  import opened Options
  import opened Paths
  import opened Models
  import opened PathCompiler
  import opened EventQueue
  import opened Semantics
  import opened Configuration
  import opened History
  import opened RunToCompletion
  import opened Validation

  // ----- a world at rest anywhere -----

  function WorldAt(m: Model, at: Path): World
    decreases |at|
  {
    if at == [] then World(map[], map[], EMPTY, 0, [], [])
    else
      var w := WorldAt(m, Dir(at));
      if HasState(m, at) then w.(trace := w.trace + [Entered(at)]) else w
  }

  lemma {:induction false} WorldAtRests(m: Model, at: Path)
    ensures Coherent(m, WorldAt(m, at)) && Open(WorldAt(m, at).trace) == ActiveChain(m, at)
    decreases |at|
  {
    if at != [] {
      var w := WorldAt(m, Dir(at));
      WorldAtRests(m, Dir(at));
      if HasState(m, at) {
        ActKeepsCoherent(m, w, Entered(at), w.(trace := w.trace + [Entered(at)]));
      }
    }
  }

  // ----- giving up -----

  /** An initial vertex, or a choice none of whose live branches is ever enabled. */
  ghost predicate Declines(c: Context, p: Path) {
    && p in c.model.vertices
    && var v := c.model.vertices[p];
       v.kind.Initial? || (v.kind.Choice? && forall n :: n in v.transitions ==> NeverEnabled(c, n))
  }

  ghost predicate NeverEnabled(c: Context, n: Path) {
    n in c.model.transitions ==>
      var guard := c.model.transitions[n].guard;
      guard.Some? && forall i: nat :: !c.env.guard(guard.value, c.event, i)
  }

  lemma {:induction false} NoneEnabled(c: Context, w: World, names: seq<Path>)
    requires forall n :: n in names ==> NeverEnabled(c, n)
    ensures FirstEnabled(c, w, names).1.None? && FirstEnabled(c, w, names).0.trace == w.trace
    decreases names
  {
    if names != [] {
      assert NeverEnabled(c, names[0]);
      var w' := if names[0] in c.model.transitions then Enabled(c, w, c.model.transitions[names[0]]).0 else w;
      NoneEnabled(c, w', names[1..]);
    }
  }

  lemma EnteringGivesUp(c: Context, fuel: nat, w: World, p: Path)
    requires Declines(c, p) && fuel > 0
    ensures Enter(c, fuel, w, p, true).Ran? && Enter(c, fuel, w, p, true).at.None?
    ensures Enter(c, fuel, w, p, true).world.trace == w.trace
  {
    if c.model.vertices[p].kind.Choice? {
      NoneEnabled(c, w, c.model.vertices[p].transitions);
    }
  }

  lemma {:induction false} EnterStatesOpens(c: Context, w: World, low: nat, p: Path)
    requires Nested(c.model) && p in c.model.vertices && IsComposite(c.model.vertices[p].kind) && low <= |p|
    requires Coherent(c.model, w) && Open(w.trace) == ActiveChain(c.model, p[..low])
    ensures forall q :: q in Chain(low, p) ==> q in c.model.vertices
    ensures Open(EnterStates(c, w, Chain(low, p)).trace) == ActiveChain(c.model, p)
    decreases |p| - low
  {
    hide Open, Lawful, RecordsOf, ActiveChain;
    ChainOfVertices(c.model, low, p);
    if low == |p| {
      assert p[..low] == p && Chain(low, p) == [];
    } else {
      ChainStep(low, p);
      var q := p[..low + 1];
      PrefixIsVertex(c.model, p, low + 1);
      assert q == p || low + 1 < |p|;
      assert Dir(q) == p[..low];
      var w1 := EnterOne(c, w, q);
      ActKeepsCoherent(c.model, w, Entered(q), w1);
      EnterStatesOpens(c, w1, low + 1, p);
    }
  }

  /** Aimed at such a vertex, a transition leaves and runs its effect and enters the states on
      the way, and then returns nothing. */
  lemma Strands(c: Context, fuel: nat, w: World, current: Path, t: Transition)
    requires Structured(c.model) && t.name in c.model.transitions && c.model.transitions[t.name] == t
    requires t.target.Some? && Declines(c, t.target.value)
    requires Rests(c.model, w, current) && Reaches(c.model, t, current) && fuel > 0
    ensures var step := Fire(c, fuel, w, current, t);
            && step.Ran? && step.at.None?
            && Open(step.world.trace) == ActiveChain(c.model, Dir(t.target.value))
  {
    hide Enter, Fire, EnterAll, EnterUnrecorded, EnterRecorded;
    hide RouteOf, ExitAll, Lawful, RecordsOf, Open, ActiveChain, Departed, EnterStates, UpToTarget, NeverEnabled;
    var m, g := c.model, t.target.value;
    assert Owned(m, g) && g != m.root;
    Departs(c, fuel, w, current, t);
    var w' := Departed(c, w, current, t);
    var low := Pivot(t);
    PivotAboveLeaf(m, t);
    var owner := Dir(g);
    assert g[..low] == owner[..low];
    EnterStatesOpens(c, w', low, owner);
    EnterListIsChain(m, t);
    EntersList(m, t, current);
    StopsAtTarget(c, fuel, w', EnterList(m, t), g);
    EntersOnTheWay(c, fuel, w', low, g);
    var w2 := EnterStates(c, w', Chain(low, owner));
    EnteringGivesUp(c, fuel, w2, g);
    SameOpen(w2.trace, Enter(c, fuel, w2, g, true).world.trace);
  }

  lemma SameOpen(a: seq<Act>, b: seq<Act>)
    requires a == b
    ensures Open(a) == Open(b)
  {
  }

  /** A vertex that contains nothing is always entered, never only passed. */
  lemma PivotAboveLeaf(m: Model, t: Transition)
    requires Nested(m) && ValidTransition(m, t) && t.target.Some? && !IsComposite(m.vertices[t.target.value].kind)
    ensures Pivot(t) < |t.target.value|
  {
    var s, g := t.source, t.target.value;
    assert Owned(m, s) && Owned(m, g);
    LCAIsLongestCommonPrefix(s, g);
    if s != g && |LCA(s, g)| == |g| {
      assert s[..|g|] == g;
      if |g| < |s| {
        PrefixesAreComposite(m, s, |g|);
      }
    }
  }

  // ----- the condition is exact -----

  /** From rest, every transition that can be fired arrives, whatever the guards and behaviours. */
  ghost predicate AlwaysArrives(m: Model) {
    forall c: Context, fuel: nat, w: World, current: Path, n: Path ::
      c.model == m && n in m.transitions && Rests(m, w, current) && Reaches(m, m.transitions[n], current) ==>
        Arrived(m, w, Fire(c, fuel, w, current, m.transitions[n]))
  }

  lemma LandingArrives(m: Model)
    requires WellFormed(m)
    ensures AlwaysArrives(m)
  {
    hide Arrived, Rests, Reaches, Fire, WellFormed;
    forall c: Context, fuel: nat, w: World, current: Path, n: Path
      | c.model == m && n in m.transitions && Rests(m, w, current) && Reaches(m, m.transitions[n], current)
      ensures Arrived(m, w, Fire(c, fuel, w, current, m.transitions[n]))
    {
      NamesAgree(m, n);
      FireArrives(c, fuel, w, current, m.transitions[n]);
    }
  }

  lemma NamesAgree(m: Model, n: Path)
    requires WellFormed(m) && n in m.transitions
    ensures m.transitions[n].name == n
  {
  }

  /** Where a transition can be fired from, and a world at rest there. */
  lemma SourceRests(m: Model, t: Transition) returns (w: World, current: Path)
    requires Structured(m) && t.source in m.vertices
    ensures Rests(m, w, current) && Reaches(m, t, current)
  {
    assert Owned(m, t.source);
    current := if FromInitial(m, t) then Dir(t.source) else t.source;
    w := WorldAt(m, current);
    WorldAtRests(m, current);
  }

  /** Exactly the models in which every transition lands are those in which every transition
      arrives from rest, for every environment. */
  lemma ArrivesExactlyWhenLanding(m: Model)
    requires Structured(m) && AimsAtVertices(m)
    ensures AlwaysArrives(m) <==> Landing(m)
  {
    hide AlwaysArrives, Structured, Lands, AimsAtVertex;
    if Landing(m) {
      LandingArrives(m);
    } else {
      var n :| n in m.transitions && m.transitions[n].source in m.vertices && !Lands(m, m.transitions[n]);
      MissingStrands(m, n);
    }
  }

  /** With every guard refusing, a transition that does not land leaves the machine nowhere. */
  lemma MissingStrands(m: Model, n: Path)
    requires Structured(m) && n in m.transitions && AimsAtVertex(m, m.transitions[n])
    requires m.transitions[n].source in m.vertices && !Lands(m, m.transitions[n])
    ensures !AlwaysArrives(m)
  {
    hide Fire, Rests, Reaches, Lands, ValidTransition;
    var t := m.transitions[n];
    var w, current := SourceRests(m, t);
    var refuse := Env((g: string, e: Event, i: nat) => false, (a: Act, e: Event, i: nat) => [], (i: nat) => []);
    var c := Context(m, refuse, Event("", false, "", [], 0));
    MissesTarget(c, t);
    Strands(c, 1, w, current, t);
    assert !Arrived(m, w, Fire(c, 1, w, current, t));
  }

  lemma MissesTarget(c: Context, t: Transition)
    requires ValidTransition(c.model, t) && !Lands(c.model, t)
    requires forall g, i: nat :: !c.env.guard(g, c.event, i)
    ensures t.target.Some? && Declines(c, t.target.value)
  {
  }

  /** Aimed at a member that is no vertex, a transition never returns an element at all. */
  lemma {:induction false} NeverReachesNonVertex(c: Context, fuel: nat, w: World, enter: seq<Path>, target: Path)
    requires target !in c.model.vertices
    ensures var step := EnterAll(c, fuel, w, enter, Some(target)); step.Ran? ==> step.at.None?
    decreases |enter|
  {
    hide Enter;
    if enter != [] && enter[0] in c.model.vertices {
      var step := Enter(c, fuel, w, enter[0], false);
      if step.Ran? {
        NeverReachesNonVertex(c, fuel, step.world, enter[1..], target);
      }
    }
  }

  lemma FiringNeverReachesNonVertex(c: Context, fuel: nat, w: World, current: Path, t: Transition)
    requires t.target.Some? && t.target.value !in c.model.vertices && !t.kind.Internal?
    ensures var step := Fire(c, fuel, w, current, t); step.Ran? ==> step.at.None?
  {
    hide EnterAll, ExitAll, Record;
    if Reaches(c.model, t, current) {
      var route := RouteOf(c.model, t, current);
      var w1 := if route.exit != [] then Record(c.model, w, current, HistoryOwner(c.model, t)) else w;
      var w3 := Perform(c, ExitAll(c, w1, route.exit).0, Effect(t.name));
      NeverReachesNonVertex(c, fuel, w3, route.enter, t.target.value);
    }
  }

  // ----- what becomes of the machine -----

  /** The machine keeps the element it was in, although what is open is the chain to the
      target's owner. */
  lemma StrandedMachine(c: Context, fuel: nat, s: Machine, ts: seq<Transition>, t: Transition)
    requires Structured(c.model) && t.name in c.model.transitions && c.model.transitions[t.name] == t
    requires Choose(c, s.world, ts).1 == Some(t) && Settled(c.model, s) && Reaches(c.model, t, s.state) && fuel > 0
    requires t.target.Some? && Declines(c, t.target.value)
    ensures var a := TryRow(c, fuel, s, ts);
            && a.Tried? && a.taken.None? && a.machine.state == s.state
            && Open(a.machine.world.trace) == ActiveChain(c.model, Dir(t.target.value))
            && (ActiveChain(c.model, s.state) != ActiveChain(c.model, Dir(t.target.value)) ==>
                 !Settled(c.model, a.machine))
  {
    hide Fire, Lawful, RecordsOf, Open, ActiveChain, Structured;
    ChooseFacts(c, s.world, ts);
    Strands(c, fuel, Choose(c, s.world, ts).0, s.state, t);
  }

  // ----- an accepted model that does not land -----

  datatype Names = Names(root: Path, a: Path, choice: Path, initial: Path, begin: Path, go: Path)

  /** Two transitions, and three vertices under a root. */
  predicate Sited(n: Names) {
    && |n.root| == 1
    && Dir(n.a) == Dir(n.choice) == Dir(n.initial) == Dir(n.begin) == Dir(n.go) == n.root
    && |n.a| == |n.choice| == |n.initial| == 2
    && n.a != n.choice && n.a != n.initial && n.choice != n.initial && n.begin != n.go
  }

  function Begin(n: Names): Transition {
    Transition(n.begin, n.initial, Some(n.a), None, [INITIAL_EVENT], External)
  }

  function Go(n: Names): Transition {
    Transition(n.go, n.a, Some(n.choice), None, ["go"], External)
  }

  /** Built and accepted, but the choice has lost its branches to a redefinition of what they
      led to. */
  function EmptiedChoice(n: Names): Model
    requires Sited(n)
  {
    Model(n.root,
      map[n.root := Vertex(State, [], Some(n.initial), []),
          n.initial := Vertex(Initial, [n.begin], None, []),
          n.a := Vertex(State, [n.go], None, []),
          n.choice := Vertex(Choice, [], None, [])],
      map[n.begin := Begin(n), n.go := Go(n)],
      {})
  }

  lemma EmptiedChoiceIsNested(n: Names)
    requires Sited(n)
    ensures Nested(EmptiedChoice(n))
  {
    var m := EmptiedChoice(n);
    forall p | p in m.vertices ensures Owned(m, p) {
      assert p == n.root || p == n.a || p == n.choice || p == n.initial;
    }
  }

  lemma EmptiedChoiceVertex(n: Names, p: Path)
    requires Sited(n)
    ensures ValidVertex(EmptiedChoice(n), p)
  {
    assert p in EmptiedChoice(n).vertices ==> p == n.root || p == n.a || p == n.choice || p == n.initial;
  }

  lemma EmptiedChoiceTransition(n: Names, name: Path)
    requires Sited(n) && name in EmptiedChoice(n).transitions
    ensures BuiltTransition(EmptiedChoice(n), name, EmptiedChoice(n).transitions[name])
  {
  }

  lemma EmptiedChoiceIsBuilt(n: Names)
    requires Sited(n)
    ensures Built(EmptiedChoice(n))
  {
    EmptiedChoiceIsNested(n);
    hide EmptiedChoice, ValidVertex, BuiltTransition, Nested;
    forall p {
      EmptiedChoiceVertex(n, p);
    }
    forall name | name in EmptiedChoice(n).transitions {
      EmptiedChoiceTransition(n, name);
    }
  }

  lemma EmptiedChoiceDoesNotLand(n: Names)
    requires Sited(n)
    ensures AimsAtVertices(EmptiedChoice(n)) && !Landing(EmptiedChoice(n))
  {
    var m := EmptiedChoice(n);
    assert n.go in m.transitions && m.transitions[n.go] == Go(n) && !Lands(m, Go(n));
  }

  lemma EmptiedTransitionPasses(n: Names, name: Path)
    requires Sited(n) && name in EmptiedChoice(n).transitions
    ensures TransitionPasses(EmptiedChoice(n), EmptiedChoice(n).transitions[name])
  {
    var m := EmptiedChoice(n);
    assert Dir(n.root) == [];
    assert Boundary(m, n.a) == Boundary(m, n.choice) == Boundary(m, n.initial) == None;
  }

  lemma EmptiedVerticesPass(n: Names)
    requires Sited(n)
    ensures var m := EmptiedChoice(n);
            && m.root in m.vertices && m.vertices[m.root].initial.Some?
            && (forall p :: p in m.vertices && m.vertices[p].kind.Initial? ==> InitialPasses(m, p))
            && (forall p :: p in m.vertices && IsHistory(m.vertices[p].kind) ==> HistoryPasses(m, p))
            && (forall p :: HistoriesUnique(m, p))
            && (forall p :: p in m.vertices && m.vertices[p].kind.Final? ==> FinalPasses(m, p))
  {
    assert TargetsNested(EmptiedChoice(n), n.root, n.begin);
    assert InitialPasses(EmptiedChoice(n), n.initial);
  }

  lemma EmptiedChoiceIsValidated(n: Names)
    requires Sited(n)
    ensures Validated(EmptiedChoice(n))
  {
    EmptiedVerticesPass(n);
    hide EmptiedChoice, TransitionPasses, InitialPasses, HistoryPasses, HistoriesUnique, FinalPasses;
    forall name | name in EmptiedChoice(n).transitions
      ensures TransitionPasses(EmptiedChoice(n), EmptiedChoice(n).transitions[name])
    {
      EmptiedTransitionPasses(n, name);
    }
  }

  /** Such names exist. */
  lemma SomeNames()
    ensures Sited(Names(["m"], ["m", "a"], ["m", "c"], ["m", ".initial"], ["m", "begin"], ["m", "go"]))
  {
    var n := Names(["m"], ["m", "a"], ["m", "c"], ["m", ".initial"], ["m", "begin"], ["m", "go"]);
    assert n.a[1] != n.choice[1] && n.a[1] != n.initial[1] && n.choice[1] != n.initial[1] && n.begin[1] != n.go[1];
  }

  /** Builders and validators accept some model in which a transition does not arrive. */
  lemma AcceptedModelNeedNotArrive() returns (m: Model)
    ensures Built(m) && Validated(m) && AimsAtVertices(m) && !AlwaysArrives(m)
  {
    SomeNames();
    var n := Names(["m"], ["m", "a"], ["m", "c"], ["m", ".initial"], ["m", "begin"], ["m", "go"]);
    m := EmptiedChoice(n);
    EmptiedChoiceIsBuilt(n);
    EmptiedChoiceIsValidated(n);
    EmptiedChoiceDoesNotLand(n);
    hide EmptiedChoice, Built, Validated, Structured, AlwaysArrives, Landing, AimsAtVertices, Sited;
    ValidatedIsStructured(m);
    ArrivesExactlyWhenLanding(m);
  }

  lemma GoIsChosen(c: Context, w: World, n: Names)
    requires Sited(n) && c.model == EmptiedChoice(n)
    ensures Choose(c, w, [Go(n)]) == (w, Some(Go(n))) && Reaches(c.model, Go(n), n.a) && Declines(c, n.choice)
    ensures n.go in c.model.transitions && c.model.transitions[n.go] == Go(n)
    ensures ActiveChain(c.model, n.root) == [n.root] && ActiveChain(c.model, n.a) == [n.root, n.a]
  {
    assert Dir(n.root) == [];
    assert ActiveChain(c.model, []) == [];
  }

  /** From rest in the state, the event's transition leaves the machine in it with only the root open. */
  lemma EmptiedChoiceStrands(c: Context, fuel: nat, w: World, n: Names)
    requires Sited(n) && c.model == EmptiedChoice(n) && Rests(c.model, w, n.a) && fuel > 0
    ensures Built(c.model) && Validated(c.model)
    ensures var tried := TryRow(c, fuel, Machine(n.a, w), [Go(n)]);
            && tried.Tried? && tried.taken.None? && tried.machine.state == n.a
            && Open(tried.machine.world.trace) == [n.root] && ActiveChain(c.model, n.a) == [n.root, n.a]
  {
    EmptiedChoiceIsBuilt(n);
    EmptiedChoiceIsValidated(n);
    EmptiedChoiceDoesNotLand(n);
    ValidatedIsStructured(c.model);
    GoIsChosen(c, w, n);
    hide EmptiedChoice, Structured, Built, Validated, TryRow, Choose, Rests, ActiveChain, Declines, Landing, Reaches;
    StrandedMachine(c, fuel, Machine(n.a, w), [Go(n)], Go(n));
  }
}
