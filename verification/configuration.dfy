/** The configuration invariant: the states entered and not yet left are exactly the states
    on the chain from the root to the current element. */
module Configuration {
  import opened Options
  import opened Paths
  import opened Models
  import opened PathCompiler
  import opened Semantics

  /** The states on the chain from the root to `p`, outermost first. */
  function ActiveChain(m: Model, p: Path): seq<Path>
    decreases |p|
  {
    if p == [] then [] else ActiveChain(m, Dir(p)) + if HasState(m, p) then [p] else []
  }

  /** The states entered and not yet left, in the order they were entered. */
  function Open(trace: seq<Act>): seq<Path> {
    if trace == [] then []
    else
      var before := Open(trace[..|trace| - 1]);
      match trace[|trace| - 1]
      case Entered(p) => before + [p]
      case Exited(_) => if before == [] then [] else before[..|before| - 1]
      case _ => before
  }

  /** When `act` may happen: a state is entered only with exactly its ancestors open, only
      the innermost open state is left, and history is recorded only for the innermost one. */
  predicate Lawful1(m: Model, open: seq<Path>, act: Act) {
    match act
    case Entered(p) => p != [] && HasState(m, p) && open == ActiveChain(m, Dir(p))
    case Exited(p) => p != [] && HasState(m, p) && open == ActiveChain(m, p)
    case Recorded(p, _) => HasState(m, p) && open == ActiveChain(m, p)
    case Effect(_) => true
  }

  predicate Lawful(m: Model, trace: seq<Act>) {
    trace == []
    || (Lawful(m, trace[..|trace| - 1]) && Lawful1(m, Open(trace[..|trace| - 1]), trace[|trace| - 1]))
  }

  /** The history maps are what the recordings in the trace make them. */
  function RecordsOf(m: Model, trace: seq<Act>, k: VertexKind): map<Path, Path> {
    if trace == [] then map[]
    else
      var before := RecordsOf(m, trace[..|trace| - 1], k);
      match trace[|trace| - 1]
      case Recorded(p, skip) => before + Targets(m, p, skip, k)
      case _ => before
  }

  ghost predicate Coherent(m: Model, w: World) {
    && Lawful(m, w.trace)
    && w.shallow == RecordsOf(m, w.trace, ShallowHistory)
    && w.deep == RecordsOf(m, w.trace, DeepHistory)
  }

  ghost predicate Extends(before: World, after: World) {
    |before.trace| <= |after.trace| && before.trace == after.trace[..|before.trace|]
  }

  /** The machine is coherent and rests at `at`. */
  ghost predicate Rests(m: Model, w: World, at: Path) {
    && Coherent(m, w)
    && at in m.vertices
    && !m.vertices[at].kind.Initial?
    && Open(w.trace) == ActiveChain(m, at)
  }

  /** `w` is coherent with exactly the states above `p` open. */
  ghost predicate ReadyToEnter(m: Model, w: World, p: Path) {
    Coherent(m, w) && p != [] && Open(w.trace) == ActiveChain(m, Dir(p))
  }

  /** A finished step from `w` reached an element, and the machine rests there. */
  ghost predicate Arrived(m: Model, w: World, step: Result) {
    match step
    case Diverged => true
    case Ran(after, at) => at.Some? && Rests(m, after, at.value) && Extends(w, after)
  }

  lemma ArrivedFrom(m: Model, w: World, w1: World, step: Result)
    requires Extends(w, w1) && Arrived(m, w1, step)
    ensures Arrived(m, w, step)
  {
  }

  // ----- single acts -----

  lemma Snoc(trace: seq<Act>, act: Act)
    ensures (trace + [act])[..|trace + [act]| - 1] == trace
  {
  }

  lemma ActKeepsCoherent(m: Model, w: World, act: Act, after: World)
    requires Coherent(m, w) && after.trace == w.trace + [act] && Lawful1(m, Open(w.trace), act)
    requires !act.Recorded? ==> after.shallow == w.shallow && after.deep == w.deep
    requires act.Recorded? ==> after == Record(m, w, act.state, act.skip)
    ensures Coherent(m, after) && Extends(w, after)
    ensures act.Entered? ==> Open(after.trace) == ActiveChain(m, act.state)
    ensures act.Exited? ==> Open(after.trace) == ActiveChain(m, Dir(act.state))
    ensures act.Recorded? || act.Effect? ==> Open(after.trace) == Open(w.trace)
  {
    Snoc(w.trace, act);
  }

  /** A vertex that is no state adds nothing to the chain. */
  lemma PseudostateChain(m: Model, p: Path)
    requires p in m.vertices && p != [] && !HasState(m, p)
    ensures ActiveChain(m, p) == ActiveChain(m, Dir(p))
  {
  }

  lemma {:induction false} FirstEnabledFacts(c: Context, w: World, names: seq<Path>)
    requires forall n :: n in c.model.transitions ==> c.model.transitions[n].name == n
    ensures var (w', t) := FirstEnabled(c, w, names);
            && w' == w.(clock := w'.clock)
            && (t.Some? ==> t.value.name in names && t.value.name in c.model.transitions
                            && c.model.transitions[t.value.name] == t.value)
            && (t.None? ==> forall n :: n in names && n in c.model.transitions ==> c.model.transitions[n].guard.Some?)
    decreases names
  {
    if names != [] {
      if names[0] !in c.model.transitions {
        FirstEnabledFacts(c, w, names[1..]);
      } else {
        var (w', matches) := Enabled(c, w, c.model.transitions[names[0]]);
        if !matches {
          FirstEnabledFacts(c, w', names[1..]);
        }
      }
    }
  }

  // ----- leaving -----

  lemma LeaveOne(c: Context, w: World, current: Path)
    requires current in c.model.vertices && current != []
    requires Coherent(c.model, w) && Open(w.trace) == ActiveChain(c.model, current)
    ensures var w' := Exit(c, w, current);
            Coherent(c.model, w') && Extends(w, w') && Open(w'.trace) == ActiveChain(c.model, Dir(current))
  {
    if HasState(c.model, current) {
      ActKeepsCoherent(c.model, w, Exited(current), Exit(c, w, current));
    }
  }

  lemma LeavingStep(low: nat, current: Path)
    requires low < |current|
    ensures Reverse(Chain(low, current)) == [current] + Reverse(Chain(low, Dir(current)))
  {
    assert Chain(low, current)[..|current| - low - 1] == Chain(low, Dir(current));
  }

  lemma LeavesNobody(c: Context, w: World, current: Path)
    ensures ExitAll(c, w, Reverse(Chain(|current|, current))) == (w, true) && current[..|current|] == current
  {
    assert Chain(|current|, current) == [];
  }

  lemma LeavesFirst(c: Context, w: World, current: Path, rest: seq<Path>)
    requires current in c.model.vertices
    ensures ExitAll(c, w, [current] + rest) == ExitAll(c, Exit(c, w, current), rest)
  {
    assert ([current] + rest)[1..] == rest;
  }

  lemma {:induction false} LeaveChain(c: Context, w: World, low: nat, current: Path)
    requires Nested(c.model) && current in c.model.vertices && low <= |current|
    requires Coherent(c.model, w) && Open(w.trace) == ActiveChain(c.model, current)
    ensures var (w', left) := ExitAll(c, w, Reverse(Chain(low, current)));
            && left && Coherent(c.model, w') && Extends(w, w')
            && Open(w'.trace) == ActiveChain(c.model, current[..low])
    decreases |current|
  {
    hide Lawful, RecordsOf, Open, ActiveChain, Exit, ExitAll, Chain, Reverse;
    if low == |current| {
      LeavesNobody(c, w, current);
    } else {
      var w1 := Exit(c, w, current);
      LeaveOne(c, w, current);
      LeavingStep(low, current);
      var rest := Reverse(Chain(low, Dir(current)));
      LeavesFirst(c, w, current, rest);
      assert Dir(current)[..low] == current[..low];
      if low == |current| - 1 {
        LeavesNobody(c, w1, Dir(current));
      } else {
        assert Owned(c.model, current) && current != c.model.root;
        LeaveChain(c, w1, low, Dir(current));
      }
    }
  }

  // ----- entering -----

  lemma {:induction false} EnterArrives(c: Context, fuel: nat, w: World, p: Path, byDefault: bool)
    requires WellFormed(c.model) && p in c.model.vertices && Enterable(c.model, p)
    requires ReadyToEnter(c.model, w, p)
    ensures Arrived(c.model, w, Enter(c, fuel, w, p, byDefault))
    decreases fuel, 0, 1
  {
    hide Fire, EnterAll, EnterRecorded, EnterUnrecorded;
    var k := c.model.vertices[p].kind;
    if fuel > 0 {
      if IsComposite(k) {
        EnterStateArrives(c, fuel, w, p, byDefault);
      } else if k.Choice? {
        EnterChoiceArrives(c, fuel, w, p, byDefault);
      } else if IsHistory(k) {
        EnterHistoryArrives(c, fuel, w, p, byDefault);
      } else {
        ActKeepsCoherent(c.model, w, Entered(p), EnterFinal(w, p));
        assert Arrived(c.model, w, Ran(EnterFinal(w, p), Some(p)));
      }
    }
  }

  lemma {:induction false} EnterStateArrives(c: Context, fuel: nat, w: World, p: Path, byDefault: bool)
    requires WellFormed(c.model) && p in c.model.vertices && IsComposite(c.model.vertices[p].kind)
    requires ReadyToEnter(c.model, w, p) && fuel > 0
    ensures Arrived(c.model, w, Enter(c, fuel, w, p, byDefault))
    decreases fuel, 0, 0
  {
    hide Enter, Fire, EnterAll, EnterRecorded, EnterUnrecorded;
    var w1 := Perform(c, w, Entered(p));
    ActKeepsCoherent(c.model, w, Entered(p), w1);
    EntersState(c, fuel, w, p, byDefault);
    var initial := InitialTransition(c.model, p);
    if byDefault && initial.Some? {
      InitialFacts(c.model, p);
      FireArrives(c, fuel - 1, w1, p, initial.value);
      ArrivedFrom(c.model, w, w1, Fire(c, fuel - 1, w1, p, initial.value));
    } else {
      assert Arrived(c.model, w, Ran(w1, Some(p)));
    }
  }

  lemma {:induction false} EnterChoiceArrives(c: Context, fuel: nat, w: World, p: Path, byDefault: bool)
    requires WellFormed(c.model) && HasDefault(c.model, p) && c.model.vertices[p].kind.Choice?
    requires ReadyToEnter(c.model, w, p) && fuel > 0
    ensures Arrived(c.model, w, Enter(c, fuel, w, p, byDefault))
    decreases fuel, 0, 0
  {
    hide Enter, Fire, EnterAll, EnterRecorded, EnterUnrecorded, FirstEnabled, Lawful, RecordsOf, Open, ActiveChain;
    assert ValidVertex(c.model, p);
    FirstEnabledFacts(c, w, c.model.vertices[p].transitions);
    var (w1, t) := FirstEnabled(c, w, c.model.vertices[p].transitions);
    PseudostateChain(c.model, p);
    EntersChoice(c, fuel, w, p, byDefault);
    FireArrives(c, fuel - 1, w1, p, t.value);
    ArrivedFrom(c.model, w, w1, Fire(c, fuel - 1, w1, p, t.value));
  }

  lemma {:induction false} EnterHistoryArrives(c: Context, fuel: nat, w: World, p: Path, byDefault: bool)
    requires WellFormed(c.model) && p in c.model.vertices && IsHistory(c.model.vertices[p].kind)
    requires ReadyToEnter(c.model, w, p) && fuel > 0
    ensures Arrived(c.model, w, Enter(c, fuel, w, p, byDefault))
    decreases fuel, 0, 0
  {
    hide Enter, Fire, EnterAll, EnterRecorded, EnterUnrecorded;
    var m, k, parent := c.model, c.model.vertices[p].kind, Dir(p);
    PseudostateChain(m, p);
    EntersHistory(c, fuel, w, p, byDefault);
    var recorded := Recall(w, k, parent);
    if recorded.None? {
      UnrecordedArrives(c, fuel - 1, w, p);
    } else if HistoryPath(m, parent, recorded.value) == [] {
      assert Arrived(m, w, Ran(w, Some(p)));
    } else {
      BelowRoot(m, p);
      HistoryPathIsChain(m, parent, recorded.value);
      assert recorded.value[..|parent|] == parent;
      RecordedArrives(c, fuel - 1, w, |parent|, recorded.value, k.ShallowHistory?);
    }
  }

  lemma {:induction false} UnrecordedArrives(c: Context, fuel: nat, w: World, history: Path)
    requires WellFormed(c.model) && history in c.model.vertices && IsHistory(c.model.vertices[history].kind)
    requires ReadyToEnter(c.model, w, history)
    ensures Arrived(c.model, w, EnterUnrecorded(c, fuel, w, history))
    decreases fuel, 3, 0
  {
    hide Enter, Fire, EnterAll, EnterRecorded, EnterUnrecorded;
    var m, owner := c.model, Dir(history);
    assert ValidVertex(m, history) && Owned(m, history);
    PseudostateChain(m, history);
    FirstEnabledFacts(c, w, m.vertices[history].transitions);
    var (w1, t) := FirstEnabled(c, w, m.vertices[history].transitions);
    if t.Some? {
      FireArrives(c, fuel, w1, history, t.value);
      ArrivedFrom(m, w, w1, Fire(c, fuel, w1, history, t.value));
      FollowsDefault(c, fuel, w, history);
    } else {
      FollowsInitial(c, fuel, w, history);
      var initial := InitialTransition(m, owner);
      if initial.Some? {
        InitialFacts(m, owner);
        FireArrives(c, fuel, w1, owner, initial.value);
        ArrivedFrom(m, w, w1, Fire(c, fuel, w1, owner, initial.value));
      } else {
        assert Arrived(m, w, Ran(w1, Some(history)));
      }
    }
  }

  lemma {:induction false} RecordedArrives(c: Context, fuel: nat, w: World, low: nat, target: Path, shallow: bool)
    requires WellFormed(c.model) && HasState(c.model, target) && low < |target|
    requires Coherent(c.model, w) && Open(w.trace) == ActiveChain(c.model, target[..low])
    ensures Arrived(c.model, w, EnterRecorded(c, fuel, w, Chain(low, target), shallow))
    decreases fuel, 1, |target| - low
  {
    hide Enter, Fire, EnterAll, EnterRecorded, EnterUnrecorded;
    ChainStep(low, target);
    var p := target[..low + 1];
    assert Dir(p) == target[..low];
    PrefixIsVertex(c.model, target, low + 1);
    var last := low + 1 == |target|;
    assert last ==> p == target;
    EnterArrives(c, fuel, w, p, shallow && last);
    EntersRecorded(c, fuel, w, Chain(low, target), shallow);
    if !last {
      EntersState(c, fuel, w, p, false);
    }
    if !last && fuel > 0 {
      var w1 := Perform(c, w, Entered(p));
      RecordedArrives(c, fuel, w1, low + 1, target, shallow);
      ArrivedFrom(c.model, w, w1, EnterRecorded(c, fuel, w1, Chain(low + 1, target), shallow));
    }
  }

  lemma {:induction false} EnterAllArrives(c: Context, fuel: nat, w: World, low: nat, target: Path)
    requires WellFormed(c.model) && target in c.model.vertices && Enterable(c.model, target)
    requires low <= |target|
    requires Coherent(c.model, w) && Open(w.trace) == ActiveChain(c.model, target[..low])
    ensures Arrived(c.model, w, EnterAll(c, fuel, w, Chain(low, target), Some(target)))
    decreases fuel, 1, |target| - low
  {
    hide Enter, Fire, EnterAll, EnterRecorded, EnterUnrecorded;
    if low == |target| {
      assert target[..low] == target;
      EntersAll(c, fuel, w, [], target);
      assert Arrived(c.model, w, Ran(w, Some(target)));
    } else {
      ChainStep(low, target);
      var p := target[..low + 1];
      assert Dir(p) == target[..low];
      PrefixIsVertex(c.model, target, low + 1);
      var last := low + 1 == |target|;
      assert last <==> p == target;
      EnterArrives(c, fuel, w, p, last);
      EntersAll(c, fuel, w, Chain(low, target), target);
      if !last {
        EntersState(c, fuel, w, p, false);
      }
      if !last && fuel > 0 {
        var w1 := Perform(c, w, Entered(p));
        EnterAllArrives(c, fuel, w1, low + 1, target);
        ArrivedFrom(c.model, w, w1, EnterAll(c, fuel, w1, Chain(low + 1, target), Some(target)));
      }
    }
  }

  lemma {:induction false} FireArrives(c: Context, fuel: nat, w: World, current: Path, t: Transition)
    requires WellFormed(c.model) && t.name in c.model.transitions && c.model.transitions[t.name] == t
    requires Rests(c.model, w, current) && Reaches(c.model, t, current)
    ensures Arrived(c.model, w, Fire(c, fuel, w, current, t))
    decreases fuel, 2, 0
  {
    hide Enter, Fire, EnterAll, EnterRecorded, EnterUnrecorded;
    hide RouteOf, ExitAll, Lawful, RecordsOf, Open, ActiveChain;
    var m := c.model;
    if t.target.None? {
      var w1 := Perform(c, w, Effect(t.name));
      ActKeepsCoherent(m, w, Effect(t.name), w1);
      FiresInternal(c, fuel, w, current, t);
      assert Arrived(m, w, Ran(w1, Some(current)));
    } else {
      var route := RouteOf(m, t, current);
      var w1 := if route.exit != [] then Record(m, w, current, HistoryOwner(m, t)) else w;
      RecordingRests(m, w, current, HistoryOwner(m, t));
      FireLeaves(c, w1, current, t);
      var w2 := ExitAll(c, w1, route.exit).0;
      var w3 := Perform(c, w2, Effect(t.name));
      ActKeepsCoherent(m, w2, Effect(t.name), w3);
      FireEnters(c, fuel, w3, current, t);
      ArrivedFrom(m, w, w3, EnterAll(c, fuel, w3, route.enter, t.target));
      FiresAlong(c, fuel, w, current, t);
    }
  }

  lemma {:induction false} FireEnters(c: Context, fuel: nat, w: World, current: Path, t: Transition)
    requires WellFormed(c.model) && ValidTransition(c.model, t) && Lands(c.model, t) && t.target.Some?
    requires Reaches(c.model, t, current) && Pivot(t) <= |t.target.value|
    requires Coherent(c.model, w) && Open(w.trace) == ActiveChain(c.model, t.target.value[..Pivot(t)])
    ensures Arrived(c.model, w, EnterAll(c, fuel, w, RouteOf(c.model, t, current).enter, t.target))
    decreases fuel, 1, |t.target.value| + 1
  {
    hide Enter, Fire, EnterAll, EnterRecorded, EnterUnrecorded;
    EnterAllArrives(c, fuel, w, Pivot(t), t.target.value);
    EnterListIsChain(c.model, t);
    StopsAtTarget(c, fuel, w, EnterList(c.model, t), t.target.value);
  }

  // ----- one unfolding of the semantics each -----

  lemma EntersState(c: Context, fuel: nat, w: World, p: Path, byDefault: bool)
    requires p in c.model.vertices && IsComposite(c.model.vertices[p].kind)
    ensures var w1 := Perform(c, w, Entered(p));
            var initial := InitialTransition(c.model, p);
            Enter(c, fuel, w, p, byDefault) ==
            if fuel == 0 then Diverged
            else if byDefault && initial.Some? then Fire(c, fuel - 1, w1, p, initial.value) else Ran(w1, Some(p))
  {
  }

  lemma EntersChoice(c: Context, fuel: nat, w: World, p: Path, byDefault: bool)
    requires p in c.model.vertices && c.model.vertices[p].kind.Choice? && fuel > 0
    ensures var (w1, t) := FirstEnabled(c, w, c.model.vertices[p].transitions);
            t.Some? ==> Enter(c, fuel, w, p, byDefault) == Fire(c, fuel - 1, w1, p, t.value)
  {
  }

  lemma EntersHistory(c: Context, fuel: nat, w: World, p: Path, byDefault: bool)
    requires p in c.model.vertices && IsHistory(c.model.vertices[p].kind) && fuel > 0
    ensures var k := c.model.vertices[p].kind;
            var recorded := Recall(w, k, Dir(p));
            Enter(c, fuel, w, p, byDefault) ==
            if recorded.None? then EnterUnrecorded(c, fuel - 1, w, p)
            else
              var path := HistoryPath(c.model, Dir(p), recorded.value);
              if path == [] then Ran(w, Some(p)) else EnterRecorded(c, fuel - 1, w, path, k.ShallowHistory?)
  {
  }

  lemma FollowsDefault(c: Context, fuel: nat, w: World, history: Path)
    requires history in c.model.vertices
    ensures var (w1, t) := FirstEnabled(c, w, c.model.vertices[history].transitions);
            t.Some? ==>
              var step := Fire(c, fuel, w1, history, t.value);
              (step.Ran? && step.at.None?) || EnterUnrecorded(c, fuel, w, history) == step
  {
  }

  lemma FollowsInitial(c: Context, fuel: nat, w: World, history: Path)
    requires history in c.model.vertices && HasState(c.model, Dir(history))
    ensures var (w1, t) := FirstEnabled(c, w, c.model.vertices[history].transitions);
            var initial := InitialTransition(c.model, Dir(history));
            t.None? ==> EnterUnrecorded(c, fuel, w, history) ==
                        if initial.Some? then Fire(c, fuel, w1, Dir(history), initial.value) else Ran(w1, Some(history))
  {
  }

  lemma EntersRecorded(c: Context, fuel: nat, w: World, path: seq<Path>, shallow: bool)
    requires path != [] && path[0] in c.model.vertices
    ensures var step := Enter(c, fuel, w, path[0], shallow && |path| == 1);
            EnterRecorded(c, fuel, w, path, shallow) ==
            if step.Diverged? || |path| == 1 then step else EnterRecorded(c, fuel, step.world, path[1..], shallow)
  {
  }

  lemma EntersAll(c: Context, fuel: nat, w: World, enter: seq<Path>, target: Path)
    requires target in c.model.vertices && (enter != [] ==> enter[0] in c.model.vertices)
    ensures EnterAll(c, fuel, w, [], Some(target)) == Ran(w, Some(target))
    ensures enter != [] ==>
            var step := Enter(c, fuel, w, enter[0], enter[0] == target);
            EnterAll(c, fuel, w, enter, Some(target)) ==
            if step.Diverged? || step.at.None? || enter[0] == target then step
            else EnterAll(c, fuel, step.world, enter[1..], Some(target))
  {
  }

  lemma FiresInternal(c: Context, fuel: nat, w: World, current: Path, t: Transition)
    requires ValidTransition(c.model, t) && t.target.None? && Reaches(c.model, t, current)
    ensures Fire(c, fuel, w, current, t) == Ran(Perform(c, w, Effect(t.name)), Some(current))
  {
  }

  lemma FiresAlong(c: Context, fuel: nat, w: World, current: Path, t: Transition)
    requires Reaches(c.model, t, current)
    ensures var route := RouteOf(c.model, t, current);
            var w1 := if route.exit != [] then Record(c.model, w, current, HistoryOwner(c.model, t)) else w;
            var (w2, left) := ExitAll(c, w1, route.exit);
            var w3 := Perform(c, w2, Effect(t.name));
            left ==> Fire(c, fuel, w, current, t) ==
                     if t.kind.Internal? then Ran(w3, Some(current)) else EnterAll(c, fuel, w3, route.enter, t.target)
  {
  }

  // ----- supporting facts -----

  lemma InitialFacts(m: Model, p: Path)
    requires Structured(m) && p in m.vertices && InitialTransition(m, p).Some?
    ensures var t := InitialTransition(m, p).value;
            && t.name in m.transitions && m.transitions[t.name] == t
            && FromInitial(m, t) && Dir(t.source) == p
  {
    assert ValidVertex(m, p);
    var initial := m.vertices[p].initial.value;
    assert ValidVertex(m, initial);
  }

  lemma BelowRoot(m: Model, p: Path)
    requires Nested(m) && p in m.vertices && p != m.root
    ensures |m.root| <= |Dir(p)|
  {
    assert Owned(m, p);
    assert p[..|p|] == p;
  }

  lemma HistoryPathIsChain(m: Model, parent: Path, target: Path)
    requires Nested(m) && HasState(m, target) && IsAncestor(parent, target) && |m.root| <= |parent|
    ensures HistoryPath(m, parent, target) == Chain(|parent|, target)
  {
    assert Owned(m, target);
    EnterPathIsChain(m.root, parent, target);
  }

  lemma ChainStep(low: nat, p: Path)
    requires low < |p|
    ensures Chain(low, p)[0] == p[..low + 1] && Chain(low, p)[1..] == Chain(low + 1, p)
  {
    ChainElements(low, p);
    ChainElements(low + 1, p);
  }

  lemma PrefixIsVertex(m: Model, p: Path, n: nat)
    requires Nested(m) && p in m.vertices && 0 < n <= |p|
    ensures p[..n] in m.vertices
    ensures n < |p| ==> IsComposite(m.vertices[p[..n]].kind)
  {
    if n < |p| {
      PrefixesAreComposite(m, p, n);
    } else {
      assert p[..n] == p;
    }
  }

  lemma {:induction false} StopsAtTarget(c: Context, fuel: nat, w: World, enter: seq<Path>, target: Path)
    ensures EnterAll(c, fuel, w, enter, Some(target)) == EnterAll(c, fuel, w, UpToTarget(enter, target), Some(target))
    decreases |enter|
  {
    if enter != [] && enter[0] != target && enter[0] in c.model.vertices {
      var step := Enter(c, fuel, w, enter[0], false);
      if step.Ran? && step.at.Some? {
        StopsAtTarget(c, fuel, step.world, enter[1..], target);
      }
      assert UpToTarget(enter, target)[1..] == UpToTarget(enter[1..], target);
    }
  }

  lemma RecordingRests(m: Model, w: World, current: Path, skip: Option<Path>)
    requires Rests(m, w, current)
    ensures Rests(m, Record(m, w, current, skip), current) && Extends(w, Record(m, w, current, skip))
  {
    if HasState(m, current) {
      ActKeepsCoherent(m, w, Recorded(current, skip), Record(m, w, current, skip));
    }
  }

  /** The exit list closes exactly the states below the pivot. */
  lemma FireLeaves(c: Context, w: World, current: Path, t: Transition)
    requires Structured(c.model) && ValidTransition(c.model, t) && t.target.Some?
    requires Rests(c.model, w, current) && Reaches(c.model, t, current)
    ensures Pivot(t) <= |t.target.value|
    ensures var (w', left) := ExitAll(c, w, RouteOf(c.model, t, current).exit);
            && left && Coherent(c.model, w') && Extends(w, w')
            && Open(w'.trace) == ActiveChain(c.model, t.target.value[..Pivot(t)])
  {
    var m := c.model;
    EnterListIsChain(m, t);
    if FromInitial(m, t) {
      InitialPivot(m, t);
      assert Exit(c, w, t.source) == w;
    } else {
      ExitListIsReversedChain(m, t, current);
      PivotIsShared(m, t, current);
      LeaveChain(c, w, Pivot(t), current);
    }
  }

  /** An initial transition pivots at the owner of its pseudostate. */
  lemma InitialPivot(m: Model, t: Transition)
    requires Nested(m) && ValidTransition(m, t) && t.target.Some? && FromInitial(m, t)
    ensures Pivot(t) == |Dir(t.source)| && t.target.value[..Pivot(t)] == Dir(t.source)
  {
    var owner, g := Dir(t.source), t.target.value;
    assert Owned(m, t.source) && Owned(m, g);
    LCAIsLongestCommonPrefix(t.source, g);
    assert AtOrAbove(owner, t.source) && AtOrAbove(owner, g);
    if !FromSelf(t) && LCA(t.source, g) == t.source {
      PrefixIsVertex(m, g, |t.source|);
    }
  }

}
