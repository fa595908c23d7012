/** When entering an element returns: no cycle through initial transitions, choices and histories. */
module Termination {
  import opened Options
  import opened Paths
  import opened Models
  import opened PathCompiler
  import opened Semantics
  import opened Configuration
  import opened History
  import opened Records

  type Ranking = Path -> nat

  /** Firing `t` enters its target by default, unless the target encloses the source. */
  predicate Descends(t: Transition, from: Path, rank: Ranking) {
    t.target.Some? && !IsAncestor(t.target.value, t.source) ==> rank(t.target.value) < rank(from)
  }

  /** The branches that can ever be taken: the live ones up to the first without a guard. */
  function LiveBranches(m: Model, names: seq<Path>): seq<Path> {
    if names == [] then []
    else if names[0] !in m.transitions then LiveBranches(m, names[1..])
    else if m.transitions[names[0]].guard.None? then [names[0]]
    else [names[0]] + LiveBranches(m, names[1..])
  }

  lemma {:induction false} LiveBranchesAreListed(m: Model, names: seq<Path>)
    ensures forall n :: n in LiveBranches(m, names) ==> n in names && n in m.transitions
    decreases names
  {
    if names != [] {
      LiveBranchesAreListed(m, names[1..]);
    }
  }

  lemma {:induction false} TakenIsLive(c: Context, w: World, names: seq<Path>)
    requires forall n :: n in c.model.transitions ==> c.model.transitions[n].name == n
    ensures var t := FirstEnabled(c, w, names).1; t.Some? ==> t.value.name in LiveBranches(c.model, names)
    decreases names
  {
    if names != [] {
      var w' := if names[0] in c.model.transitions then Enabled(c, w, c.model.transitions[names[0]]).0 else w;
      TakenIsLive(c, w', names[1..]);
    }
  }

  ghost predicate RankedAt(m: Model, p: Path, rank: Ranking) {
    p in m.vertices ==>
    var v := m.vertices[p];
    && (IsComposite(v.kind) && InitialTransition(m, p).Some? ==> Descends(InitialTransition(m, p).value, p, rank))
    && (v.kind.Choice? || IsHistory(v.kind) ==>
          forall n :: n in LiveBranches(m, v.transitions) && n in m.transitions ==> Descends(m.transitions[n], p, rank))
    && (IsHistory(v.kind) ==>
          && rank(p) > 0
          && ((!HasDefault(m, p) || !Landing(m)) && HasState(m, Dir(p)) && InitialTransition(m, Dir(p)).Some? ==>
                Descends(InitialTransition(m, Dir(p)).value, p, rank)))
    && (v.kind.ShallowHistory? ==>
          forall s :: HasState(m, s) && s != [] && Dir(s) == Dir(p) ==> rank(s) < rank(p))
  }

  /** Some ranking falls along every default entry: the model has no pseudostate cycle. */
  ghost predicate Ranked(m: Model, rank: Ranking) {
    forall p {:trigger RankedAt(m, p, rank)} :: RankedAt(m, p, rank)
  }

  /** Entering a state without its default entry takes one unit of fuel, anything else more
      than its rank. */
  function FuelFor(m: Model, p: Path, byDefault: bool, rank: Ranking): nat
    requires p in m.vertices
  {
    if !byDefault && IsState(m.vertices[p].kind) then 1 else rank(p) + 1
  }

  function FuelForTarget(t: Transition, rank: Ranking): nat {
    if t.target.Some? && !IsAncestor(t.target.value, t.source) then rank(t.target.value) + 1 else 0
  }

  /** The models spoken of here: no transition need land, and the world need not be at rest. */
  ghost predicate Returning(m: Model, rank: Ranking) {
    Structured(m) && AimsAtVertices(m) && Ranked(m, rank)
  }

  /** The step returns, and with an element where every transition lands. */
  predicate Returns(m: Model, step: Result, enterable: bool) {
    step.Ran? && (Landing(m) && enterable ==> step.at.Some?)
  }

  lemma {:induction false} EnterReturns(c: Context, rank: Ranking, fuel: nat, w: World, p: Path, byDefault: bool)
    requires Returning(c.model, rank) && p in c.model.vertices && RecordsGood(c.model, w)
    requires fuel >= FuelFor(c.model, p, byDefault, rank)
    ensures Returns(c.model, Enter(c, fuel, w, p, byDefault), Enterable(c.model, p))
    decreases fuel, 0, 1
  {
    hide Fire, EnterAll, EnterRecorded, EnterUnrecorded, RecordsGood, Landing, HasDefault, AimsAtVertices;
    var m, k := c.model, c.model.vertices[p].kind;
    assert RankedAt(m, p, rank) && ValidVertex(m, p);
    if IsComposite(k) {
      var w1 := Perform(c, w, Entered(p));
      if byDefault && InitialTransition(m, p).Some? {
        InitialFacts(m, p);
        PerformKeepsRecords(c, w, Entered(p));
        FireReturns(c, rank, fuel - 1, w1, p, InitialTransition(m, p).value);
      }
    } else if k.Choice? {
      ChoiceReturns(c, rank, fuel, w, p, byDefault);
    } else if IsHistory(k) {
      HistoryReturns(c, rank, fuel, w, p, byDefault);
    }
  }

  lemma {:induction false} ChoiceReturns(c: Context, rank: Ranking, fuel: nat, w: World, p: Path, byDefault: bool)
    requires Returning(c.model, rank) && p in c.model.vertices && RecordsGood(c.model, w)
    requires c.model.vertices[p].kind.Choice? && fuel > rank(p)
    ensures Returns(c.model, Enter(c, fuel, w, p, byDefault), Enterable(c.model, p))
    decreases fuel, 0, 0
  {
    hide Fire, EnterAll, EnterRecorded, EnterUnrecorded, RecordsGood, Landing, AimsAtVertices, FirstEnabled;
    var m, names := c.model, c.model.vertices[p].transitions;
    assert RankedAt(m, p, rank) && ValidVertex(m, p);
    FirstEnabledFacts(c, w, names);
    TakenIsLive(c, w, names);
    FirstEnabledKeepsRecords(c, w, names);
    var (w1, t) := FirstEnabled(c, w, names);
    if t.Some? {
      FireReturns(c, rank, fuel - 1, w1, p, t.value);
    }
  }

  lemma {:induction false} HistoryReturns(c: Context, rank: Ranking, fuel: nat, w: World, p: Path, byDefault: bool)
    requires Returning(c.model, rank) && p in c.model.vertices && RecordsGood(c.model, w)
    requires IsHistory(c.model.vertices[p].kind) && fuel > rank(p)
    ensures Returns(c.model, Enter(c, fuel, w, p, byDefault), true)
    decreases fuel, 0, 0
  {
    hide Enter, Fire, EnterAll, EnterRecorded, EnterUnrecorded, Landing, AimsAtVertices, LiveBranches;
    var m, k, parent := c.model, c.model.vertices[p].kind, Dir(p);
    assert RankedAt(m, p, rank) && Owned(m, p);
    EntersHistory(c, fuel, w, p, byDefault);
    var recorded := Recall(w, k, parent);
    if recorded.None? {
      UnrecordedReturns(c, rank, fuel - 1, w, p);
    } else if HistoryPath(m, parent, recorded.value) != [] {
      assert GoodRecordsAt(m, w.shallow, w.deep, parent);
      BelowRoot(m, p);
      HistoryPathIsChain(m, parent, recorded.value);
      RecordedReturns(c, rank, fuel - 1, w, |parent|, recorded.value, k.ShallowHistory?);
    }
  }

  lemma {:induction false} UnrecordedReturns(c: Context, rank: Ranking, fuel: nat, w: World, history: Path)
    requires Returning(c.model, rank) && history in c.model.vertices && RecordsGood(c.model, w)
    requires IsHistory(c.model.vertices[history].kind) && fuel >= rank(history)
    ensures Returns(c.model, EnterUnrecorded(c, fuel, w, history), true)
    decreases fuel, 3, 0
  {
    hide Enter, Fire, EnterAll, EnterRecorded, RecordsGood, Landing, AimsAtVertices, FirstEnabled, LiveBranches;
    var m, owner, names := c.model, Dir(history), c.model.vertices[history].transitions;
    assert RankedAt(m, history, rank) && ValidVertex(m, history) && Owned(m, history);
    FirstEnabledFacts(c, w, names);
    TakenIsLive(c, w, names);
    FirstEnabledKeepsRecords(c, w, names);
    var (w1, t) := FirstEnabled(c, w, names);
    var followed := if t.Some? then Fire(c, fuel, w1, history, t.value) else Ran(w1, None);
    if t.Some? {
      FireReturns(c, rank, fuel, w1, history, t.value);
      FireKeepsRecords(c, fuel, w1, history, t.value);
    }
    if followed.at.None? && InitialTransition(m, owner).Some? {
      InitialFacts(m, owner);
      FireReturns(c, rank, fuel, followed.world, owner, InitialTransition(m, owner).value);
    }
  }

  lemma {:induction false} RecordedReturns(c: Context, rank: Ranking, fuel: nat, w: World, low: nat, target: Path,
          shallow: bool)
    requires Returning(c.model, rank) && HasState(c.model, target) && low < |target| && RecordsGood(c.model, w)
    requires fuel >= 1 && (shallow ==> fuel >= rank(target) + 1)
    ensures Returns(c.model, EnterRecorded(c, fuel, w, Chain(low, target), shallow), true)
    decreases fuel, 1, |target| - low
  {
    hide Enter, Fire, EnterAll, EnterRecorded, EnterUnrecorded, RecordsGood, Landing, AimsAtVertices, Ranked;
    ChainStep(low, target);
    var p := target[..low + 1];
    PrefixIsVertex(c.model, target, low + 1);
    var last := low + 1 == |target|;
    assert last ==> p == target;
    EnterReturns(c, rank, fuel, w, p, shallow && last);
    EntersRecorded(c, fuel, w, Chain(low, target), shallow);
    if !last {
      EntersState(c, fuel, w, p, false);
      PerformKeepsRecords(c, w, Entered(p));
      RecordedReturns(c, rank, fuel, Perform(c, w, Entered(p)), low + 1, target, shallow);
    }
  }

  lemma {:induction false} EnterAllReturns(c: Context, rank: Ranking, fuel: nat, w: World, low: nat, target: Path)
    requires Returning(c.model, rank) && RecordsGood(c.model, w)
    requires target in c.model.vertices && low <= |target|
    requires low < |target| ==> fuel >= rank(target) + 1
    ensures Returns(c.model, EnterAll(c, fuel, w, Chain(low, target), Some(target)), Enterable(c.model, target))
    decreases fuel, 1, |target| - low
  {
    hide Enter, Fire, EnterAll, EnterRecorded, EnterUnrecorded, RecordsGood, Landing, AimsAtVertices, Ranked;
    if low == |target| {
      EntersAll(c, fuel, w, [], target);
    } else {
      ChainStep(low, target);
      var p := target[..low + 1];
      PrefixIsVertex(c.model, target, low + 1);
      var last := low + 1 == |target|;
      assert last <==> p == target;
      EnterReturns(c, rank, fuel, w, p, last);
      EntersAll(c, fuel, w, Chain(low, target), target);
      if !last {
        EntersState(c, fuel, w, p, false);
        PerformKeepsRecords(c, w, Entered(p));
        EnterAllReturns(c, rank, fuel, Perform(c, w, Entered(p)), low + 1, target);
      }
    }
  }

  /** In a ranked model every transition returns, from any world with good records: fuel above the
      rank of its target is enough. */
  lemma {:induction false} FireReturns(c: Context, rank: Ranking, fuel: nat, w: World, current: Path, t: Transition)
    requires Returning(c.model, rank) && RecordsGood(c.model, w)
    requires t.name in c.model.transitions && c.model.transitions[t.name] == t
    requires fuel >= FuelForTarget(t, rank)
    ensures Returns(c.model, Fire(c, fuel, w, current, t), Reaches(c.model, t, current))
    decreases fuel, 2, 0
  {
    hide Enter, Fire, EnterAll, EnterRecorded, EnterUnrecorded, RecordsGood, Landing, Ranked, ExitAll, RouteOf, Record;
    if !Reaches(c.model, t, current) {
      DoesNotFire(c, fuel, w, current, t);
      return;
    }
    assert ValidTransition(c.model, t);
    if t.target.None? {
      FiresInternal(c, fuel, w, current, t);
    } else {
      var m, g, route := c.model, t.target.value, RouteOf(c.model, t, current);
      var w1 := if route.exit != [] then Record(m, w, current, HistoryOwner(m, t)) else w;
      var w2 := ExitAll(c, w1, route.exit).0;
      var w3 := Perform(c, w2, Effect(t.name));
      RecordKeepsRecords(m, w, current, HistoryOwner(m, t));
      ExitsEverything(c, w1, current, t);
      PerformKeepsRecords(c, w2, Effect(t.name));
      FiresAlong(c, fuel, w, current, t);
      if IsAncestor(g, t.source) {
        EnclosingTargetPivot(t);
      }
      EnterListIsChain(m, t);
      EnterAllReturns(c, rank, fuel, w3, Pivot(t), g);
      StopsAtTarget(c, fuel, w3, EnterList(m, t), g);
      EntersList(m, t, current);
      LandsHere(m, t);
    }
  }

  lemma LandsHere(m: Model, t: Transition)
    requires t.name in m.transitions && m.transitions[t.name] == t && t.source in m.vertices && t.target.Some?
    requires t.target.value in m.vertices
    ensures Landing(m) ==> Enterable(m, t.target.value)
  {
    if Landing(m) {
      assert Lands(m, t);
    }
  }

  lemma DoesNotFire(c: Context, fuel: nat, w: World, current: Path, t: Transition)
    requires !Reaches(c.model, t, current)
    ensures Fire(c, fuel, w, current, t) == Ran(w, None)
  {
  }

  lemma {:induction false} ChainExits(c: Context, w: World, low: nat, current: Path)
    requires Nested(c.model) && current in c.model.vertices && low <= |current|
    ensures ExitAll(c, w, Reverse(Chain(low, current))).1
    decreases |current|
  {
    hide Exit, ExitAll, Chain, Reverse;
    if low == |current| {
      LeavesNobody(c, w, current);
    } else {
      LeavingStep(low, current);
      LeavesFirst(c, w, current, Reverse(Chain(low, Dir(current))));
      if low == |current| - 1 {
        LeavesNobody(c, Exit(c, w, current), Dir(current));
      } else {
        assert Owned(c.model, current) && current != c.model.root;
        ChainExits(c, Exit(c, w, current), low, Dir(current));
      }
    }
  }

  /** No member is missing from an exit list, and leaving records nothing more. */
  lemma ExitsEverything(c: Context, w: World, current: Path, t: Transition)
    requires Nested(c.model) && ValidTransition(c.model, t) && t.target.Some? && Reaches(c.model, t, current)
    requires RecordsGood(c.model, w)
    ensures var (w', left) := ExitAll(c, w, RouteOf(c.model, t, current).exit); left && RecordsGood(c.model, w')
  {
    ExitAllKeepsRecords(c, w, RouteOf(c.model, t, current).exit);
    if !FromInitial(c.model, t) {
      ExitListIsReversedChain(c.model, t, current);
      ChainExits(c, w, Pivot(t), current);
    }
  }

  lemma PerformKeepsRecords(c: Context, w: World, act: Act)
    requires RecordsGood(c.model, w)
    ensures RecordsGood(c.model, Perform(c, w, act))
  {
  }

  lemma FirstEnabledKeepsRecords(c: Context, w: World, names: seq<Path>)
    requires RecordsGood(c.model, w)
    ensures RecordsGood(c.model, FirstEnabled(c, w, names).0)
  {
    FirstEnabledSameRecords(c, w, names);
  }

  lemma EnclosingTargetPivot(t: Transition)
    requires t.target.Some? && IsAncestor(t.target.value, t.source)
    ensures Pivot(t) == |t.target.value|
  {
    LCAIsLongestCommonPrefix(t.source, t.target.value);
    assert AtOrAbove(t.target.value, LCA(t.source, t.target.value));
  }
}
