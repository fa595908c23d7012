/** When entering an element never returns: the ranking is exact for models without history. */
module Divergence {
  import opened Options
  import opened Paths
  import opened Models
  import opened PathCompiler
  import opened Semantics
  import opened Configuration
  import opened History
  import opened Records
  import opened Termination
  import opened LandingCondition
  import opened EventQueue
  import opened Validation

  /** Firing the transition enters its target by default. */
  predicate Enters(t: Transition) {
    t.target.Some? && !IsAncestor(t.target.value, t.source)
  }

  // ----- a set of vertices that default entries do not leave -----

  /** In the context, entering any member by default goes on to enter a member by default. */
  ghost predicate TrapFor(c: Context, s: set<Path>) {
    forall p :: p in s ==> p in c.model.vertices && StaysIn(c, s, p)
  }

  ghost predicate StaysIn(c: Context, s: set<Path>, p: Path)
    requires p in c.model.vertices
  {
    var v := c.model.vertices[p];
    if IsComposite(v.kind) then
      var t := InitialTransition(c.model, p);
      t.Some? && Enters(t.value) && t.value.target.value in s
    else
      && v.kind.Choice?
      && forall w: World :: var t := FirstEnabled(c, w, v.transitions).1;
                            t.Some? && Enters(t.value) && t.value.target.value in s
  }

  lemma EntersBelowPivot(m: Model, t: Transition)
    requires Nested(m) && ValidTransition(m, t) && Enters(t)
    ensures Pivot(t) < |t.target.value|
  {
    var s, g := t.source, t.target.value;
    assert Owned(m, s) && Owned(m, g);
    LCAIsLongestCommonPrefix(s, g);
  }

  lemma {:induction false} TrapDiverges(c: Context, fuel: nat, w: World, p: Path, s: set<Path>)
    requires Structured(c.model) && TrapFor(c, s) && p in s && ReadyToEnter(c.model, w, p)
    ensures Enter(c, fuel, w, p, true).Diverged?
    decreases fuel, 0, 0
  {
    hide Fire, EnterAll, EnterUnrecorded, EnterRecorded, TrapFor, Structured;
    hide Lawful, RecordsOf, Open, ActiveChain, FirstEnabled;
    assert p in c.model.vertices && StaysIn(c, s, p) by {
      TrapMember(c, s, p);
    }
    if fuel > 0 {
      var m, v := c.model, c.model.vertices[p];
      if IsComposite(v.kind) {
        var w1 := Perform(c, w, Entered(p));
        ActKeepsCoherent(m, w, Entered(p), w1);
        InitialFacts(m, p);
        FiringStays(c, fuel - 1, w1, p, InitialTransition(m, p).value, s);
      } else {
        NamesMatch(m);
        FirstEnabledFacts(c, w, v.transitions);
        var (w1, t) := FirstEnabled(c, w, v.transitions);
        PseudostateChain(m, p);
        TrapMember(c, s, t.value.target.value);
        ListedHere(m, p, t.value);
        FiringStays(c, fuel - 1, w1, p, t.value, s);
      }
    }
  }

  lemma TrapMember(c: Context, s: set<Path>, p: Path)
    requires TrapFor(c, s) && p in s
    ensures p in c.model.vertices && StaysIn(c, s, p)
  {
  }

  lemma NamesMatch(m: Model)
    requires Structured(m)
    ensures forall n :: n in m.transitions ==> m.transitions[n].name == n
  {
  }

  lemma ListedHere(m: Model, p: Path, t: Transition)
    requires Structured(m) && p in m.vertices && m.vertices[p].kind.Choice?
    requires t.name in m.vertices[p].transitions && t.name in m.transitions && m.transitions[t.name] == t
    requires AimsAtVertex(m, t)
    ensures Reaches(m, t, p) && ValidTransition(m, t)
  {
    assert ValidVertex(m, p);
  }

  lemma {:induction false} FiringStays(c: Context, fuel: nat, w: World, current: Path, t: Transition, s: set<Path>)
    requires Structured(c.model) && TrapFor(c, s)
    requires t.name in c.model.transitions && c.model.transitions[t.name] == t
    requires Rests(c.model, w, current) && Reaches(c.model, t, current)
    requires Enters(t) && t.target.value in s
    ensures Fire(c, fuel, w, current, t).Diverged?
    decreases fuel, 2, 0
  {
    hide Enter, Fire, EnterAll, EnterUnrecorded, EnterRecorded, TrapFor;
    hide RouteOf, ExitAll, Lawful, RecordsOf, Open, ActiveChain, Departed, EnterStates, UpToTarget;
    var m, g := c.model, t.target.value;
    TrapMember(c, s, g);
    Departs(c, fuel, w, current, t);
    var w', low := Departed(c, w, current, t), Pivot(t);
    EntersBelowPivot(m, t);
    EnterListIsChain(m, t);
    EntersList(m, t, current);
    StopsAtTarget(c, fuel, w', EnterList(m, t), g);
    ReachesDeep(c, fuel, w', low, g, s);
  }

  /** On the way down to a member, and then at it. */
  lemma {:induction false} ReachesDeep(c: Context, fuel: nat, w: World, low: nat, g: Path, s: set<Path>)
    requires Structured(c.model) && TrapFor(c, s) && g in s && g in c.model.vertices && low < |g|
    requires Coherent(c.model, w) && Open(w.trace) == ActiveChain(c.model, g[..low])
    ensures EnterAll(c, fuel, w, Chain(low, g), Some(g)).Diverged?
    decreases fuel, 1, |g| - low
  {
    hide Enter, Fire, EnterAll, EnterUnrecorded, EnterRecorded, TrapFor, Structured;
    hide Lawful, RecordsOf, Open, ActiveChain;
    StructuredIsNested(c.model);
    ChainStep(low, g);
    var p := g[..low + 1];
    assert Dir(p) == g[..low];
    PrefixIsVertex(c.model, g, low + 1);
    EntersAll(c, fuel, w, Chain(low, g), g);
    if low + 1 == |g| {
      assert p == g;
      TrapDiverges(c, fuel, w, g, s);
    } else {
      EntersState(c, fuel, w, p, false);
      if fuel > 0 {
        var w1 := Perform(c, w, Entered(p));
        ActKeepsCoherent(c.model, w, Entered(p), w1);
        ReachesDeep(c, fuel, w1, low + 1, g, s);
      }
    }
  }

  lemma StructuredIsNested(m: Model)
    requires Structured(m)
    ensures Nested(m)
  {
  }

  // ----- cycles of choices, whatever the guards -----

  /** Choices all of whose live branches, one of them without a guard, lead to such choices. */
  ghost predicate ChoiceTrap(m: Model, s: set<Path>) {
    forall p :: p in s ==> HasDefault(m, p) && m.vertices[p].kind.Choice? && BranchesInto(m, s, p)
  }

  ghost predicate BranchesInto(m: Model, s: set<Path>, p: Path)
    requires p in m.vertices
  {
    forall n :: n in LiveBranches(m, m.vertices[p].transitions) && n in m.transitions ==>
      Enters(m.transitions[n]) && m.transitions[n].target.value in s
  }

  /** In every structured model, entering a member of such a set never returns: for every
      environment, world and fuel. */
  lemma ChoiceTrapDiverges(c: Context, fuel: nat, w: World, p: Path, s: set<Path>)
    requires Structured(c.model) && ChoiceTrap(c.model, s) && p in s && ReadyToEnter(c.model, w, p)
    ensures Enter(c, fuel, w, p, true).Diverged?
  {
    NamesMatch(c.model);
    forall q | q in s
      ensures q in c.model.vertices && StaysIn(c, s, q)
    {
      ChoiceTrapHolds(c, q, s);
    }
    hide ChoiceTrap, StaysIn, Enter, ReadyToEnter, Structured;
    TrapDiverges(c, fuel, w, p, s);
  }

  lemma ChoiceTrapHolds(c: Context, p: Path, s: set<Path>)
    requires forall n :: n in c.model.transitions ==> c.model.transitions[n].name == n
    requires HasDefault(c.model, p) && c.model.vertices[p].kind.Choice? && BranchesInto(c.model, s, p)
    ensures StaysIn(c, s, p)
  {
    hide FirstEnabled, LiveBranches;
    var names := c.model.vertices[p].transitions;
    forall w: World
      ensures var t := FirstEnabled(c, w, names).1; t.Some? && Enters(t.value) && t.value.target.value in s
    {
      FirstEnabledFacts(c, w, names);
      TakenIsLive(c, w, names);
    }
  }

  // ----- cycles that some guards can follow -----

  /** A transition that entering the vertex by default can go on with. */
  predicate DefaultStep(m: Model, p: Path, n: Path)
    requires p in m.vertices
  {
    var v := m.vertices[p];
    && n in m.transitions
    && if IsComposite(v.kind) then InitialTransition(m, p) == Some(m.transitions[n])
       else v.kind.Choice? && n in LiveBranches(m, v.transitions)
  }

  predicate StepsInto(m: Model, s: set<Path>, p: Path, n: Path)
    requires p in m.vertices
  {
    DefaultStep(m, p, n) && Enters(m.transitions[n]) && m.transitions[n].target.value in s
  }

  /** From every member some default entry can lead to a member. */
  ghost predicate Trap(m: Model, s: set<Path>) {
    forall p :: p in s ==> p in m.vertices && exists n :: StepsInto(m, s, p, n)
  }

  /** A guard is declared in its transition, so no two transitions share one. */
  predicate UniqueGuards(m: Model) {
    forall n1, n2 ::
      (n1 in m.transitions && n2 in m.transitions && m.transitions[n1].guard.Some?
       && m.transitions[n1].guard == m.transitions[n2].guard) ==> n1 == n2
  }

  /** One step for each of some members. */
  ghost predicate Picks(m: Model, s: set<Path>, pick: map<Path, Path>) {
    forall p :: p in pick ==> IsPick(m, s, p, pick[p])
  }

  ghost predicate IsPick(m: Model, s: set<Path>, p: Path, n: Path) {
    p in m.vertices && StepsInto(m, s, p, n)
  }

  lemma {:induction false} PickSteps(m: Model, s: set<Path>, todo: set<Path>) returns (pick: map<Path, Path>)
    requires Trap(m, s) && todo <= s
    ensures pick.Keys == todo && Picks(m, s, pick)
    decreases |todo|
  {
    hide IsPick, Trap;
    if todo == {} {
      return map[];
    }
    var p :| p in todo;
    var n := TrapStep(m, s, p);
    var rest := PickSteps(m, s, todo - {p});
    pick := rest[p := n];
  }

  lemma TrapStep(m: Model, s: set<Path>, p: Path) returns (n: Path)
    requires Trap(m, s) && p in s
    ensures IsPick(m, s, p, n)
  {
    hide StepsInto;
    n :| StepsInto(m, s, p, n);
  }

  /** The guards of the picked transitions hold, and no others. */
  ghost predicate Follows(c: Context, pick: map<Path, Path>) {
    forall n, i: nat :: n in c.model.transitions && c.model.transitions[n].guard.Some? ==>
      (c.env.guard(c.model.transitions[n].guard.value, c.event, i) <==> n in pick.Values)
  }

  lemma {:induction false} PickedIsTaken(c: Context, pick: map<Path, Path>, w: World, names: seq<Path>, n: Path)
    requires Follows(c, pick) && n in LiveBranches(c.model, names) && n in c.model.transitions && n in pick.Values
    requires forall o :: o in names && o in c.model.transitions && o in pick.Values ==> o == n
    ensures FirstEnabled(c, w, names).1 == Some(c.model.transitions[n])
    decreases names
  {
    if names[0] !in c.model.transitions {
      PickedIsTaken(c, pick, w, names[1..], n);
    } else if names[0] != n {
      PickedIsTaken(c, pick, Enabled(c, w, c.model.transitions[names[0]]).0, names[1..], n);
    }
  }

  /** A step of a choice starts at the choice, one of a composite state at an initial vertex. */
  lemma StepSource(m: Model, p: Path, n: Path)
    requires Structured(m) && p in m.vertices && DefaultStep(m, p, n)
    ensures n in m.transitions && m.transitions[n].name == n && m.transitions[n].source in m.vertices
    ensures if m.vertices[p].kind.Choice? then m.transitions[n].source == p
            else m.vertices[m.transitions[n].source].kind.Initial?
  {
    assert ValidVertex(m, p);
    if IsComposite(m.vertices[p].kind) {
      InitialFacts(m, p);
    } else {
      LiveBranchesAreListed(m, m.vertices[p].transitions);
    }
  }

  lemma PicksTrap(c: Context, s: set<Path>, pick: map<Path, Path>)
    requires Structured(c.model) && Picks(c.model, s, pick) && pick.Keys == s && Follows(c, pick)
    ensures TrapFor(c, s)
  {
    hide Structured, Follows, StaysIn;
    forall p | p in s
      ensures p in c.model.vertices && StaysIn(c, s, p)
    {
      PickStays(c, s, pick, p);
    }
  }

  lemma PickStays(c: Context, s: set<Path>, pick: map<Path, Path>, p: Path)
    requires Structured(c.model) && Picks(c.model, s, pick) && pick.Keys == s && Follows(c, pick) && p in s
    ensures p in c.model.vertices && StaysIn(c, s, p)
  {
    hide FirstEnabled, LiveBranches, Structured, Follows;
    assert IsPick(c.model, s, p, pick[p]);
    var m, names := c.model, c.model.vertices[p].transitions;
    StepSource(m, p, pick[p]);
    if m.vertices[p].kind.Choice? {
      OnlyPick(m, s, pick, p);
      forall w: World
        ensures FirstEnabled(c, w, names).1 == Some(m.transitions[pick[p]])
      {
        PickedIsTaken(c, pick, w, names, pick[p]);
      }
    }
  }

  lemma OnlyPick(m: Model, s: set<Path>, pick: map<Path, Path>, p: Path)
    requires Structured(m) && Picks(m, s, pick) && pick.Keys == s
    requires p in s && p in m.vertices && m.vertices[p].kind.Choice?
    ensures forall o :: o in m.vertices[p].transitions && o in m.transitions && o in pick.Values ==> o == pick[p]
  {
    hide StepsInto;
    assert ValidVertex(m, p);
    forall o | o in m.vertices[p].transitions && o in m.transitions && o in pick.Values
      ensures o == pick[p]
    {
      var q :| q in pick && pick[q] == o;
      assert IsPick(m, s, q, o);
      StepOf(m, s, q, o);
      StepSource(m, q, o);
    }
  }

  lemma StepOf(m: Model, s: set<Path>, p: Path, n: Path)
    requires p in m.vertices && StepsInto(m, s, p, n)
    ensures DefaultStep(m, p, n)
  {
  }

  /** The guards that follow the picks, at every evaluation. */
  lemma FollowingContext(m: Model, pick: map<Path, Path>) returns (c: Context)
    requires UniqueGuards(m)
    ensures c.model == m && Follows(c, pick)
  {
    var held := set n | n in pick.Values && n in m.transitions && m.transitions[n].guard.Some? ::
      m.transitions[n].guard.value;
    var env := Env((g: string, e: Event, i: nat) => g in held, (a: Act, e: Event, i: nat) => [], (i: nat) => []);
    c := Context(m, env, Event("", false, "", [], 0));
    forall n, i: nat | n in m.transitions && m.transitions[n].guard.Some?
      ensures c.env.guard(m.transitions[n].guard.value, c.event, i) <==> n in pick.Values
    {
    }
  }

  /** If `p` can be entered from the world, doing so does not return with that fuel. */
  ghost predicate EntryDiverges(c: Context, fuel: nat, w: World, p: Path) {
    p in c.model.vertices && (ReadyToEnter(c.model, w, p) ==> Enter(c, fuel, w, p, true).Diverged?)
  }

  /** When some guards can follow a cycle, there are guards with which entering never returns,
      from any world and with any fuel. */
  lemma TrapHasDivergingContext(m: Model, s: set<Path>) returns (c: Context)
    requires Structured(m) && UniqueGuards(m) && Trap(m, s)
    ensures c.model == m && forall fuel: nat, w: World, p :: p in s ==> EntryDiverges(c, fuel, w, p)
  {
    hide Trap, Structured, UniqueGuards, TrapFor, EntryDiverges;
    var pick := PickSteps(m, s, s);
    c := FollowingContext(m, pick);
    PicksTrap(c, s, pick);
    forall fuel: nat, w: World, p | p in s
      ensures EntryDiverges(c, fuel, w, p)
    {
      MemberDiverges(c, fuel, w, p, s);
    }
  }

  lemma MemberDiverges(c: Context, fuel: nat, w: World, p: Path, s: set<Path>)
    requires Structured(c.model) && TrapFor(c, s) && p in s
    ensures EntryDiverges(c, fuel, w, p)
  {
    hide Enter, ReadyToEnter, Structured, StaysIn;
    if ReadyToEnter(c.model, w, p) {
      TrapDiverges(c, fuel, w, p, s);
    }
  }

  // ----- a ranking or a trap -----

  predicate NoHistory(m: Model) {
    forall p :: p in m.vertices ==> !IsHistory(m.vertices[p].kind)
  }

  /** The vertex's default entries lead to vertices ranked lower. */
  ghost predicate RankedIn(m: Model, rank: map<Path, nat>, p: Path) {
    && p in m.vertices && p in rank && rank[p] < |rank|
    && forall n :: StepsOn(m, p, n) ==>
         m.transitions[n].target.value in rank && rank[m.transitions[n].target.value] < rank[p]
  }

  predicate StepsOn(m: Model, p: Path, n: Path) {
    n in m.transitions && p in m.vertices && DefaultStep(m, p, n) && Enters(m.transitions[n])
  }

  ghost predicate PartRanked(m: Model, rank: map<Path, nat>) {
    forall p :: p in rank ==> RankedIn(m, rank, p)
  }

  /** Nothing enters a vertex outside the ranked ones. */
  ghost predicate Rankable(m: Model, rank: map<Path, nat>, p: Path) {
    && p in m.vertices && p !in rank
    && forall n :: StepsOn(m, p, n) ==> m.transitions[n].target.value in rank
  }

  lemma RankNext(m: Model, rank: map<Path, nat>, p: Path)
    requires PartRanked(m, rank) && Rankable(m, rank, p)
    ensures PartRanked(m, rank[p := |rank|])
  {
    hide StepsOn;
    var next := rank[p := |rank|];
    assert next.Keys == rank.Keys + {p};
    assert |next| == |next.Keys| == |rank.Keys| + 1;
    forall q | q in next
      ensures RankedIn(m, next, q)
    {
      if q != p {
        assert RankedIn(m, rank, q);
      } else {
        assert forall r :: r in rank ==> RankedIn(m, rank, r);
      }
    }
  }

  lemma RestIsTrap(m: Model, rank: map<Path, nat>)
    requires Structured(m) && AimsAtVertices(m)
    requires forall p :: p in m.vertices && p !in rank ==> !Rankable(m, rank, p)
    ensures Trap(m, m.vertices.Keys - rank.Keys)
  {
    hide DefaultStep;
    var rest := m.vertices.Keys - rank.Keys;
    forall p | p in rest
      ensures exists n :: StepsInto(m, rest, p, n)
    {
      assert !Rankable(m, rank, p);
      var n :| StepsOn(m, p, n) && m.transitions[n].target.value !in rank;
      StepTarget(m, p, n);
      assert StepsInto(m, rest, p, n);
    }
  }

  lemma StepTarget(m: Model, p: Path, n: Path)
    requires Structured(m) && AimsAtVertices(m) && StepsOn(m, p, n)
    ensures m.transitions[n].target.Some? && m.transitions[n].target.value in m.vertices
  {
    StepSource(m, p, n);
  }

  /** Vertices are ranked one at a time, each above all before it, until none is left or the
      ones left are a trap. */
  lemma {:induction false} RankOrTrap(m: Model, rank: map<Path, nat>) returns (all: map<Path, nat>, s: set<Path>)
    requires Structured(m) && AimsAtVertices(m) && PartRanked(m, rank) && rank.Keys <= m.vertices.Keys
    ensures if s == {} then all.Keys == m.vertices.Keys && PartRanked(m, all) else Trap(m, s)
    decreases |m.vertices.Keys - rank.Keys|
  {
    hide PartRanked, Rankable, Trap, Structured, AimsAtVertices;
    var rest := m.vertices.Keys - rank.Keys;
    if rest == {} {
      assert rank.Keys == m.vertices.Keys;
      return rank, {};
    }
    if p :| p in m.vertices && p !in rank && Rankable(m, rank, p) {
      RankNext(m, rank, p);
      var next := rank[p := |rank|];
      assert m.vertices.Keys - next.Keys == rest - {p};
      all, s := RankOrTrap(m, next);
    } else {
      RestIsTrap(m, rank);
      all, s := rank, rest;
    }
  }

  lemma RankedFromMap(m: Model, all: map<Path, nat>) returns (rank: Ranking)
    requires Structured(m) && NoHistory(m) && PartRanked(m, all) && all.Keys == m.vertices.Keys
    ensures Ranked(m, rank)
  {
    rank := (p: Path) => if p in all then all[p] else 0;
    hide PartRanked, RankedIn, RankedAt;
    forall p
      ensures RankedAt(m, p, rank)
    {
      if p in m.vertices {
        AllRanked(m, all, p);
        RankedAtFromMap(m, all, rank, p);
      } else {
        RankedOutside(m, rank, p);
      }
    }
  }

  lemma RankedOutside(m: Model, rank: Ranking, p: Path)
    requires p !in m.vertices
    ensures RankedAt(m, p, rank)
  {
  }

  lemma AllRanked(m: Model, all: map<Path, nat>, p: Path)
    requires PartRanked(m, all) && p in all
    ensures RankedIn(m, all, p)
  {
  }

  lemma RankedAtFromMap(m: Model, all: map<Path, nat>, rank: Ranking, p: Path)
    requires Structured(m) && p in m.vertices && !IsHistory(m.vertices[p].kind) && RankedIn(m, all, p)
    requires forall q :: rank(q) == if q in all then all[q] else 0
    ensures RankedAt(m, p, rank)
  {
    if IsComposite(m.vertices[p].kind) && InitialTransition(m, p).Some? {
      InitialFacts(m, p);
      assert Enters(InitialTransition(m, p).value) ==> StepsOn(m, p, InitialTransition(m, p).value.name);
    } else if m.vertices[p].kind.Choice? {
      forall n | n in LiveBranches(m, m.vertices[p].transitions) && n in m.transitions
        ensures Descends(m.transitions[n], p, rank)
      {
        assert Enters(m.transitions[n]) ==> StepsOn(m, p, n);
      }
    }
  }

  // ----- the ranking is exact -----

  /** Entering by default, from any world that is ready for it, returns with enough fuel. */
  ghost predicate EntryReturns(m: Model) {
    forall c: Context, w: World, p: Path :: c.model == m && p in m.vertices && ReadyToEnter(m, w, p) ==>
      exists fuel: nat :: Enter(c, fuel, w, p, true).Ran?
  }

  /** For models without history vertices: default entry returns in every environment and every
      world exactly when the model can be ranked. */
  lemma ReturnsExactlyWhenRanked(m: Model)
    requires Structured(m) && AimsAtVertices(m) && NoHistory(m) && UniqueGuards(m)
    ensures EntryReturns(m) <==> exists rank: Ranking :: Ranked(m, rank)
  {
    hide Structured, AimsAtVertices, NoHistory, UniqueGuards, Ranked, EntryReturns, PartRanked, Trap;
    forall rank: Ranking | Ranked(m, rank)
      ensures EntryReturns(m)
    {
      RankedReturns(m, rank);
    }
    NothingRanked(m);
    var all, s := RankOrTrap(m, map[]);
    if s == {} {
      var rank := RankedFromMap(m, all);
    } else {
      TrapDoesNotReturn(m, s);
    }
  }

  lemma NothingRanked(m: Model)
    ensures PartRanked(m, map[])
  {
  }

  lemma RankedReturns(m: Model, rank: Ranking)
    requires Structured(m) && AimsAtVertices(m) && Ranked(m, rank)
    ensures EntryReturns(m)
  {
    hide Structured, AimsAtVertices, Ranked, Enter, ReadyToEnter;
    forall c: Context, w: World, p: Path | c.model == m && p in m.vertices && ReadyToEnter(m, w, p)
      ensures exists fuel: nat :: Enter(c, fuel, w, p, true).Ran?
    {
      ReadyRecords(m, w, p);
      EnterReturns(c, rank, rank(p) + 1, w, p, true);
    }
  }

  lemma ReadyRecords(m: Model, w: World, p: Path)
    requires Structured(m) && ReadyToEnter(m, w, p)
    ensures RecordsGood(m, w)
  {
    CoherentRecords(m, w);
  }

  lemma TrapDoesNotReturn(m: Model, s: set<Path>)
    requires Structured(m) && UniqueGuards(m) && Trap(m, s) && s != {}
    ensures !EntryReturns(m)
  {
    hide Enter, Structured, TrapFor, UniqueGuards, EntryReturns, StepsInto, Lawful, RecordsOf, ReadyToEnter;
    var p :| p in s;
    var c := TrapHasDivergingContext(m, s);
    var w := ReadyWorld(m, p);
    forall fuel: nat
      ensures !Enter(c, fuel, w, p, true).Ran?
    {
      assert EntryDiverges(c, fuel, w, p);
    }
    NeverReturns(c, w, p);
  }

  lemma ReadyWorld(m: Model, p: Path) returns (w: World)
    requires Structured(m) && p in m.vertices
    ensures ReadyToEnter(m, w, p)
  {
    assert Owned(m, p);
    w := WorldAt(m, Dir(p));
    WorldAtRests(m, Dir(p));
  }

  lemma NeverReturns(c: Context, w: World, p: Path)
    requires p in c.model.vertices && ReadyToEnter(c.model, w, p)
    requires forall fuel: nat :: !Enter(c, fuel, w, p, true).Ran?
    ensures !EntryReturns(c.model)
  {
    hide Enter, ReadyToEnter;
  }

  // ----- an accepted cycle -----

  /** The machine starts at a choice whose only, unguarded, branch leads back to it. */
  function CyclicModel(n: Names): Model
    requires Sited(n)
  {
    Model(n.root,
      map[n.root := Vertex(State, [], Some(n.initial), []),
          n.initial := Vertex(Initial, [n.begin], None, []),
          n.choice := Vertex(Choice, [n.go], None, [])],
      map[n.begin := Transition(n.begin, n.initial, Some(n.choice), None, [INITIAL_EVENT], External),
          n.go := Transition(n.go, n.choice, Some(n.choice), None, [], Self)],
      {})
  }

  lemma CyclicModelIsNested(n: Names)
    requires Sited(n)
    ensures Nested(CyclicModel(n)) && forall p :: ValidVertex(CyclicModel(n), p)
  {
    var m := CyclicModel(n);
    forall p
      ensures Owned(m, p) || p !in m.vertices
      ensures ValidVertex(m, p)
    {
      assert p in m.vertices ==> p == n.root || p == n.choice || p == n.initial;
    }
  }

  lemma CyclicTransition(n: Names, name: Path)
    requires Sited(n) && name in CyclicModel(n).transitions
    ensures BuiltTransition(CyclicModel(n), name, CyclicModel(n).transitions[name])
    ensures Lands(CyclicModel(n), CyclicModel(n).transitions[name])
  {
    var m := CyclicModel(n);
    assert n.go in m.vertices[n.choice].transitions && m.transitions[n.go].guard.None?;
  }

  lemma CyclicTransitionPasses(n: Names, name: Path)
    requires Sited(n) && name in CyclicModel(n).transitions
    ensures TransitionPasses(CyclicModel(n), CyclicModel(n).transitions[name])
  {
    assert Dir(n.root) == [];
    assert Boundary(CyclicModel(n), n.choice) == Boundary(CyclicModel(n), n.initial) == None;
  }

  lemma CyclicVerticesPass(n: Names)
    requires Sited(n)
    ensures var m := CyclicModel(n);
            && m.root in m.vertices && m.vertices[m.root].initial.Some?
            && (forall p :: p in m.vertices && m.vertices[p].kind.Initial? ==> InitialPasses(m, p))
            && (forall p :: p in m.vertices && IsHistory(m.vertices[p].kind) ==> HistoryPasses(m, p))
            && (forall p :: HistoriesUnique(m, p))
            && (forall p :: p in m.vertices && m.vertices[p].kind.Final? ==> FinalPasses(m, p))
  {
    var m := CyclicModel(n);
    assert TargetsNested(m, n.root, n.begin);
    assert InitialPasses(m, n.initial);
  }

  /** Every check accepts a cycle of choices, and a caller's check of the targets does too. */
  lemma CyclicModelIsAccepted(n: Names)
    requires Sited(n)
    ensures Built(CyclicModel(n)) && Validated(CyclicModel(n)) && Landing(CyclicModel(n))
  {
    CyclicModelIsNested(n);
    CyclicVerticesPass(n);
    hide CyclicModel, ValidVertex, BuiltTransition, Nested, TransitionPasses, Lands, InitialPasses, HistoryPasses;
    hide HistoriesUnique, FinalPasses;
    forall name | name in CyclicModel(n).transitions
      ensures BuiltTransition(CyclicModel(n), name, CyclicModel(n).transitions[name])
      ensures TransitionPasses(CyclicModel(n), CyclicModel(n).transitions[name])
      ensures Lands(CyclicModel(n), CyclicModel(n).transitions[name])
    {
      CyclicTransition(n, name);
      CyclicTransitionPasses(n, name);
    }
  }

  lemma CyclicChoiceIsTrap(n: Names)
    requires Sited(n)
    ensures ChoiceTrap(CyclicModel(n), {n.choice})
  {
    var m := CyclicModel(n);
    assert LiveBranches(m, [n.go]) == [n.go];
    CyclicTransition(n, n.go);
  }

  lemma CyclicModelDiverges(c: Context, fuel: nat, w: World, n: Names)
    requires Sited(n) && c.model == CyclicModel(n) && ReadyToEnter(c.model, w, n.choice)
    ensures n.choice in c.model.vertices && Enter(c, fuel, w, n.choice, true).Diverged?
  {
    CyclicModelIsAccepted(n);
    CyclicChoiceIsTrap(n);
    ValidatedIsWellFormed(c.model);
    assert n.choice in c.model.vertices;
    hide CyclicModel, Built, Validated, Structured, ChoiceTrap, Enter, ReadyToEnter;
    ChoiceTrapDiverges(c, fuel, w, n.choice, {n.choice});
  }

  /** Builders, validators and a caller's check accept some model in which entering does not return. */
  lemma AcceptedModelNeedNotReturn() returns (m: Model)
    ensures Built(m) && Validated(m) && Landing(m) && !EntryReturns(m)
  {
    SomeNames();
    var n := Names(["m"], ["m", "a"], ["m", "c"], ["m", ".initial"], ["m", "begin"], ["m", "go"]);
    m := CyclicModel(n);
    CyclicModelIsAccepted(n);
    ValidatedIsWellFormed(m);
    assert n.choice in m.vertices;
    hide CyclicModel, Sited, Enter, ReadyToEnter, EntryReturns;
    var w := ReadyWorld(m, n.choice);
    var env := Env((g: string, e: Event, i: nat) => false, (a: Act, e: Event, i: nat) => [], (i: nat) => []);
    var c := Context(m, env, Event("", false, "", [], 0));
    forall fuel: nat
      ensures !Enter(c, fuel, w, n.choice, true).Ran?
    {
      CyclicModelDiverges(c, fuel, w, n);
    }
    NeverReturns(c, w, n.choice);
  }
}
