/** Trace consequences of the configuration invariant, and what history recordings are worth. */
module History {
  import opened Options
  import opened Paths
  import opened Models
  import opened PathCompiler
  import opened Semantics
  import opened Configuration

  // ----- entries and exits -----

  lemma {:induction false} ActiveChainMembers(m: Model, p: Path, q: Path)
    ensures q in ActiveChain(m, p) <==> q != [] && AtOrAbove(q, p) && HasState(m, q)
    decreases |p|
  {
    if p != [] {
      ActiveChainMembers(m, Dir(p), q);
      if |q| == |p| {
        assert AtOrAbove(q, p) ==> q == p;
      } else if |q| < |p| {
        assert Dir(p)[..|q|] == p[..|q|];
      }
    }
  }

  /** The visits of `p` in a trace: true for an entry, false for an exit. */
  function Visits(trace: seq<Act>, p: Path): seq<bool> {
    if trace == [] then []
    else
      Visits(trace[..|trace| - 1], p) +
      match trace[|trace| - 1]
      case Entered(q) => if q == p then [true] else []
      case Exited(q) => if q == p then [false] else []
      case _ => []
  }

  lemma OpenAfter(m: Model, trace: seq<Act>, p: Path)
    requires trace != [] && Lawful(m, trace)
    ensures var before := Open(trace[..|trace| - 1]);
            match trace[|trace| - 1]
            case Entered(q) => p in Open(trace) <==> p in before || p == q
            case Exited(q) => p in Open(trace) <==> p in before && p != q
            case _ => p in Open(trace) <==> p in before
    ensures trace[|trace| - 1] == Entered(p) ==> p !in Open(trace[..|trace| - 1])
    ensures trace[|trace| - 1] == Exited(p) ==> p in Open(trace[..|trace| - 1])
  {
    match trace[|trace| - 1]
    case Entered(q) =>
      ActiveChainMembers(m, Dir(q), p);
    case Exited(q) =>
      ActiveChainMembers(m, q, p);
      ActiveChainMembers(m, Dir(q), p);
      assert Open(trace) == ActiveChain(m, Dir(q));
    case _ =>
  }

  /** Every state is entered first, then left, then entered again, and so on; and it is open
      exactly between an entry and the next exit. */
  lemma {:induction false} EntriesAndExitsAlternate(m: Model, trace: seq<Act>, p: Path)
    requires Lawful(m, trace)
    ensures Alternating(Visits(trace, p))
    ensures p in Open(trace) <==> |Visits(trace, p)| % 2 == 1
    decreases |trace|
  {
    if trace != [] {
      assert Lawful(m, trace[..|trace| - 1]);
      hide Visits, Open, Lawful, Alternating;
      EntriesAndExitsAlternate(m, trace[..|trace| - 1], p);
      NextVisitAlternates(m, trace, p);
    }
  }

  lemma NextVisitAlternates(m: Model, trace: seq<Act>, p: Path)
    requires trace != [] && Lawful(m, trace)
    requires Alternating(Visits(trace[..|trace| - 1], p))
    requires p in Open(trace[..|trace| - 1]) <==> |Visits(trace[..|trace| - 1], p)| % 2 == 1
    ensures Alternating(Visits(trace, p)) && (p in Open(trace) <==> |Visits(trace, p)| % 2 == 1)
  {
    hide Visits, Open, Lawful, Alternating;
    var before, last := trace[..|trace| - 1], trace[|trace| - 1];
    OpenAfter(m, trace, p);
    VisitsAfter(trace, p);
    AlternatingNext(Visits(before, p));
    if last == Entered(p) {
      assert p in Open(trace) && |Visits(before, p)| % 2 == 0;
    } else if last == Exited(p) {
      assert p !in Open(trace) && |Visits(before, p)| % 2 == 1;
    } else {
      assert p in Open(trace) <==> p in Open(before);
    }
  }

  /** An entry first, then an exit, and so on. */
  predicate Alternating(visits: seq<bool>) {
    forall i :: 0 <= i < |visits| ==> visits[i] == (i % 2 == 0)
  }

  lemma AlternatingNext(visits: seq<bool>)
    requires Alternating(visits)
    ensures Alternating(visits + [|visits| % 2 == 0])
  {
  }

  lemma VisitsAfter(trace: seq<Act>, p: Path)
    requires trace != []
    ensures var before := Visits(trace[..|trace| - 1], p);
            Visits(trace, p) ==
            if trace[|trace| - 1] == Entered(p) then before + [true]
            else if trace[|trace| - 1] == Exited(p) then before + [false]
            else before
  {
  }

  // ----- the history maps -----

  ghost predicate ShallowRecord(m: Model, owner: Path, target: Path) {
    && HasState(m, owner) && HasState(m, target)
    && target != [] && Dir(target) == owner
    && HasHistory(m, owner, ShallowHistory)
  }

  ghost predicate DeepRecord(m: Model, owner: Path, target: Path) {
    && HasState(m, owner) && HasState(m, target)
    && IsAncestor(owner, target)
    && HasHistory(m, owner, DeepHistory)
  }

  ghost predicate GoodRecordsAt(m: Model, shallow: map<Path, Path>, deep: map<Path, Path>, p: Path) {
    && (p in shallow ==> ShallowRecord(m, p, shallow[p]))
    && (p in deep ==> DeepRecord(m, p, deep[p]))
    && (p in shallow && p in deep ==> AtOrAbove(shallow[p], deep[p]))
  }

  ghost predicate GoodRecords(m: Model, shallow: map<Path, Path>, deep: map<Path, Path>) {
    forall p :: GoodRecordsAt(m, shallow, deep, p)
  }

  /** Only states are ever left with their history recorded. */
  predicate RecordsStates(m: Model, trace: seq<Act>) {
    forall act :: act in trace && act.Recorded? ==> HasState(m, act.state)
  }

  lemma {:induction false} LawfulRecordsStates(m: Model, trace: seq<Act>)
    requires Lawful(m, trace)
    ensures RecordsStates(m, trace)
    decreases |trace|
  {
    if trace != [] {
      LawfulRecordsStates(m, trace[..|trace| - 1]);
    }
  }

  lemma CoherentRecords(m: Model, w: World)
    requires Nested(m) && Coherent(m, w)
    ensures GoodRecords(m, w.shallow, w.deep)
  {
    LawfulRecordsStates(m, w.trace);
    HistoryMapInvariant(m, w.trace);
  }

  /** Shallow records are direct child states, deep ones strict descendants, and a state with
      both has its shallow record on the way to its deep one. */
  lemma {:induction false} HistoryMapInvariant(m: Model, trace: seq<Act>)
    requires Nested(m) && RecordsStates(m, trace)
    ensures GoodRecords(m, RecordsOf(m, trace, ShallowHistory), RecordsOf(m, trace, DeepHistory))
    decreases |trace|
  {
    if trace != [] {
      var before, last := trace[..|trace| - 1], trace[|trace| - 1];
      HistoryMapInvariant(m, before);
      if last.Recorded? {
        RecordingKeepsGood(m, RecordsOf(m, before, ShallowHistory), RecordsOf(m, before, DeepHistory), last.state,
           last.skip);
      }
    }
  }

  lemma RecordingKeepsGood(m: Model, shallow: map<Path, Path>, deep: map<Path, Path>, s: Path, skip: Option<Path>)
    requires Nested(m) && HasState(m, s) && GoodRecords(m, shallow, deep)
    ensures GoodRecords(m, shallow + Targets(m, s, skip, ShallowHistory), deep + Targets(m, s, skip, DeepHistory))
  {
    var shallow', deep' := shallow + Targets(m, s, skip, ShallowHistory), deep + Targets(m, s, skip, DeepHistory);
    forall p ensures GoodRecordsAt(m, shallow', deep', p) {
      RecordingKeepsGoodAt(m, shallow, deep, s, skip, p);
    }
  }

  lemma RecordingKeepsGoodAt(m: Model, shallow: map<Path, Path>, deep: map<Path, Path>, s: Path, skip: Option<Path>,
          p: Path)
    requires Nested(m) && HasState(m, s) && GoodRecordsAt(m, shallow, deep, p)
    ensures GoodRecordsAt(m, shallow + Targets(m, s, skip, ShallowHistory), deep + Targets(m, s, skip, DeepHistory), p)
  {
    hide HasHistory;
    if p in Targets(m, s, skip, ShallowHistory) || p in Targets(m, s, skip, DeepHistory) {
      assert Owned(m, p);
      PrefixIsVertex(m, s, |p| + 1);
      var child := s[..|p| + 1];
      assert |p| + 1 == |s| ==> child == s;
      assert Dir(child) == p && HasState(m, child);
    }
  }

  /** The ancestry check on resolving a history vertex never discards a record. */
  lemma RecallNeverDiscards(m: Model, w: World, owner: Path)
    requires GoodRecords(m, w.shallow, w.deep)
    ensures Recall(w, ShallowHistory, owner) == if owner in w.shallow then Some(w.shallow[owner]) else None
    ensures Recall(w, DeepHistory, owner) == if owner in w.deep then Some(w.deep[owner]) else None
  {
    assert GoodRecordsAt(m, w.shallow, w.deep, owner);
  }

  ghost predicate SameAt(before: map<Path, Path>, after: map<Path, Path>, p: Path) {
    (p in before <==> p in after) && (p in before ==> before[p] == after[p])
  }

  /** While a state stays closed, its records stay what they were. */
  lemma {:induction false} ClosedStatesKeepRecords(m: Model, trace: seq<Act>, n: nat, p: Path, k: VertexKind)
    requires n <= |trace| && Lawful(m, trace) && p != []
    requires p !in Open(trace[..n]) && Entered(p) !in trace[n..]
    ensures p !in Open(trace)
    ensures SameAt(RecordsOf(m, trace[..n], k), RecordsOf(m, trace, k), p)
    decreases |trace|
  {
    if n == |trace| {
      assert trace[..n] == trace;
    } else {
      var before := trace[..|trace| - 1];
      assert before[..n] == trace[..n];
      assert before[n..] == trace[n..][..|before| - n];
      ClosedStatesKeepRecords(m, before, n, p, k);
      assert trace[|trace| - 1] == trace[n..][|trace| - n - 1];
      OpenAfter(m, trace, p);
      if trace[|trace| - 1].Recorded? {
        ActiveChainMembers(m, trace[|trace| - 1].state, p);
      }
    }
  }

  // ----- leaving and coming back -----

  lemma {:induction false} ExitAllKeepsRecords(c: Context, w: World, exit: seq<Path>)
    ensures var (w', _) := ExitAll(c, w, exit); w'.shallow == w.shallow && w'.deep == w.deep
    decreases exit
  {
    if exit != [] && exit[0] in c.model.vertices {
      ExitAllKeepsRecords(c, Exit(c, w, exit[0]), exit[1..]);
    }
  }

  /** The world in which a targeted transition has left and run its effects. */
  function Departed(c: Context, w: World, current: Path, t: Transition): World
    requires Reaches(c.model, t, current)
  {
    var route := RouteOf(c.model, t, current);
    var w1 := if route.exit != [] then Record(c.model, w, current, HistoryOwner(c.model, t)) else w;
    Perform(c, ExitAll(c, w1, route.exit).0, Effect(t.name))
  }

  lemma Departs(c: Context, fuel: nat, w: World, current: Path, t: Transition)
    requires Structured(c.model) && t.name in c.model.transitions && c.model.transitions[t.name] == t
    requires t.target.Some? && t.target.value in c.model.vertices
    requires Rests(c.model, w, current) && Reaches(c.model, t, current)
    ensures var w' := Departed(c, w, current, t);
            && Coherent(c.model, w') && Extends(w, w') && Pivot(t) <= |t.target.value|
            && Open(w'.trace) == ActiveChain(c.model, t.target.value[..Pivot(t)])
            && Fire(c, fuel, w, current, t) == EnterAll(c, fuel, w', RouteOf(c.model, t, current).enter, t.target)
  {
    hide Enter, Fire, EnterAll, EnterRecorded, EnterUnrecorded;
    hide RouteOf, ExitAll, Lawful, RecordsOf, Open, ActiveChain;
    var m, route := c.model, RouteOf(c.model, t, current);
    var w1 := if route.exit != [] then Record(m, w, current, HistoryOwner(m, t)) else w;
    RecordingRests(m, w, current, HistoryOwner(m, t));
    FireLeaves(c, w1, current, t);
    var w2 := ExitAll(c, w1, route.exit).0;
    ActKeepsCoherent(m, w2, Effect(t.name), Perform(c, w2, Effect(t.name)));
    FiresAlong(c, fuel, w, current, t);
  }

  function RecordsIn(w: World, k: VertexKind): map<Path, Path> {
    if k.ShallowHistory? then w.shallow else w.deep
  }

  /** What leaving `p` makes of its records: the state left, or for a shallow record the child of
      `p` on the way to it, unless the state left is `p` itself or no state, or the transition
      aims at a history vertex of `p`. */
  function RecordOnLeaving(m: Model, w: World, current: Path, t: Transition, p: Path, k: VertexKind): Option<Path> {
    if HasState(m, current) && IsAncestor(p, current) && HistoryOwner(m, t) != Some(p) then
      Some(if k.ShallowHistory? then current[..|p| + 1] else current)
    else if p in RecordsIn(w, k) then Some(RecordsIn(w, k)[p])
    else None
  }

  ghost predicate RecordIs(w: World, p: Path, k: VertexKind, r: Option<Path>) {
    (p in RecordsIn(w, k) <==> r.Some?) && (r.Some? ==> RecordsIn(w, k)[p] == r.value)
  }

  lemma RecordsAtLeaving(m: Model, w: World, current: Path, t: Transition, p: Path, k: VertexKind)
    requires HasState(m, p) && IsHistory(k) && HasHistory(m, p, k)
    ensures RecordIs(Record(m, w, current, HistoryOwner(m, t)), p, k, RecordOnLeaving(m, w, current, t, p, k))
  {
    hide HasHistory;
  }

  lemma LeavingRecords(c: Context, w: World, current: Path, t: Transition, p: Path, k: VertexKind)
    requires Structured(c.model) && t.name in c.model.transitions && c.model.transitions[t.name] == t
    requires t.target.Some? && t.target.value in c.model.vertices
    requires Rests(c.model, w, current) && Reaches(c.model, t, current)
    requires p in Open(w.trace) && Pivot(t) < |p| && IsHistory(k) && HasHistory(c.model, p, k)
    ensures var w' := Departed(c, w, current, t);
            p !in Open(w'.trace) && RecordIs(w', p, k, RecordOnLeaving(c.model, w, current, t, p, k))
  {
    hide Enter, Fire, EnterAll, EnterRecorded, EnterUnrecorded, Lawful, RecordsOf;
    hide ExitAll, Open, ActiveChain, Reverse, Chain, LCA, ExitPath, EnterPath, Record, RecordOnLeaving, HasHistory;
    var m, route := c.model, RouteOf(c.model, t, current);
    Departs(c, 0, w, current, t);
    ActiveChainMembers(m, t.target.value[..Pivot(t)], p);
    ActiveChainMembers(m, current, p);
    var skip := HistoryOwner(m, t);
    RecordsAtLeaving(m, w, current, t, p, k);
    var w1 := if route.exit != [] then Record(m, w, current, skip) else w;
    ExitAllKeepsRecords(c, w1, route.exit);
    if FromInitial(m, t) {
      InitialPivot(m, t);
      assert false;
    }
    ExitListIsReversedChain(m, t, current);
    assert route.exit != [];
  }

  function EnterOne(c: Context, w: World, p: Path): World
    requires p in c.model.vertices
  {
    if c.model.vertices[p].kind.Final? then EnterFinal(w, p) else Perform(c, w, Entered(p))
  }

  function EnterStates(c: Context, w: World, path: seq<Path>): World
    requires forall p :: p in path ==> p in c.model.vertices
    decreases path
  {
    if path == [] then w else EnterStates(c, EnterOne(c, w, path[0]), path[1..])
  }

  function Entries(path: seq<Path>): seq<Act> {
    if path == [] then [] else [Entered(path[0])] + Entries(path[1..])
  }

  lemma {:induction false} EnterStatesTrace(c: Context, w: World, path: seq<Path>)
    requires forall p :: p in path ==> p in c.model.vertices
    ensures var w' := EnterStates(c, w, path);
            w'.trace == w.trace + Entries(path) && w'.shallow == w.shallow && w'.deep == w.deep
    decreases path
  {
    if path != [] {
      var w1 := EnterOne(c, w, path[0]);
      EnterOneTrace(c, w, path[0]);
      hide EnterOne;
      EnterStatesTrace(c, w1, path[1..]);
      assert w1.trace + Entries(path[1..]) == w.trace + ([Entered(path[0])] + Entries(path[1..]));
    }
  }

  lemma EnterOneTrace(c: Context, w: World, p: Path)
    requires p in c.model.vertices
    ensures var w' := EnterOne(c, w, p);
            w'.trace == w.trace + [Entered(p)] && w'.shallow == w.shallow && w'.deep == w.deep
  {
  }

  lemma {:induction false} EnterStatesSplit(c: Context, w: World, a: seq<Path>, b: seq<Path>)
    requires forall p :: p in a + b ==> p in c.model.vertices
    ensures (forall p :: p in a ==> p in c.model.vertices) && (forall p :: p in b ==> p in c.model.vertices)
    ensures EnterStates(c, w, a + b) == EnterStates(c, EnterStates(c, w, a), b)
    decreases a
  {
    assert forall p :: p in a ==> p in a + b;
    assert forall p :: p in b ==> p in a + b;
    if a == [] {
      assert a + b == b;
    } else {
      assert (a + b)[1..] == a[1..] + b;
      EnterStatesSplit(c, EnterOne(c, w, a[0]), a[1..], b);
    }
  }

  lemma ChainOfVertices(m: Model, low: nat, p: Path)
    requires Nested(m) && p in m.vertices
    ensures forall q :: q in Chain(low, p) ==> q in m.vertices
  {
    ChainElements(low, p);
    forall i | 0 <= i < |Chain(low, p)| ensures Chain(low, p)[i] in m.vertices {
      PrefixIsVertex(m, p, low + 1 + i);
    }
  }

  /** A deep record is re-entered state by state, without any default entry. */
  lemma {:induction false} DeepRecordIsReentered(c: Context, fuel: nat, w: World, low: nat, target: Path)
    requires Nested(c.model) && HasState(c.model, target) && low < |target| && fuel > 0
    requires forall q :: q in Chain(low, target) ==> q in c.model.vertices
    ensures EnterRecorded(c, fuel, w, Chain(low, target), false) ==
            Ran(EnterStates(c, w, Chain(low, target)), Some(target))
    decreases |target| - low
  {
    hide Fire, EnterAll, EnterUnrecorded, EnterRecorded;
    ChainStep(low, target);
    var p := target[..low + 1];
    PrefixIsVertex(c.model, target, low + 1);
    EntersRecorded(c, fuel, w, Chain(low, target), false);
    if low + 1 == |target| {
      assert p == target;
      assert Enter(c, fuel, w, p, false) == Ran(EnterOne(c, w, p), Some(p));
      assert Chain(low + 1, target) == [];
    } else {
      EntersState(c, fuel, w, p, false);
      DeepRecordIsReentered(c, fuel, EnterOne(c, w, p), low + 1, target);
    }
  }

  /** On the way to a target every enclosing state is entered, without its default entry. */
  lemma {:induction false} EntersOnTheWay(c: Context, fuel: nat, w: World, low: nat, target: Path)
    requires Nested(c.model) && target in c.model.vertices && low < |target| && fuel > 0
    requires forall q :: q in Chain(low, Dir(target)) ==> q in c.model.vertices
    ensures EnterAll(c, fuel, w, Chain(low, target), Some(target)) ==
            Enter(c, fuel, EnterStates(c, w, Chain(low, Dir(target))), target, true)
    decreases |target| - low
  {
    hide Enter, Fire, EnterAll, EnterUnrecorded, EnterRecorded;
    ChainStep(low, target);
    var p := target[..low + 1];
    PrefixIsVertex(c.model, target, low + 1);
    EntersAll(c, fuel, w, Chain(low, target), target);
    if low + 1 == |target| {
      assert p == target;
      assert Chain(low, Dir(target)) == [];
    } else {
      EntersState(c, fuel, w, p, false);
      ChainStep(low, Dir(target));
      assert Dir(target)[..low + 1] == p;
      EntersOnTheWay(c, fuel, EnterOne(c, w, p), low + 1, target);
    }
  }

  /** The world in which a transition to a history vertex has entered the vertex's owner, unless it
      was still open, on the way to the vertex. */
  function AtOwner(c: Context, w: World, current: Path, t: Transition, h: Path): World
    requires Reaches(c.model, t, current) && t.target.Some?
    requires forall q :: q in Chain(Pivot(t), Dir(h)) ==> q in c.model.vertices
  {
    EnterStates(c, Departed(c, w, current, t), Chain(Pivot(t), Dir(h)))
  }

  /** A transition to a history vertex pivots at the vertex's owner or above. */
  lemma HistoryPivot(m: Model, t: Transition, h: Path)
    requires Nested(m) && ValidTransition(m, t) && t.target == Some(h) && IsHistory(m.vertices[h].kind)
    ensures Pivot(t) <= |Dir(h)|
  {
    assert Owned(m, h) && Owned(m, t.source);
    LCAIsLongestCommonPrefix(t.source, h);
    if !FromSelf(t) && |LCA(t.source, h)| == |h| {
      PrefixesAreComposite(m, t.source, |h|);
    }
  }

  lemma ArrivesAtHistory(c: Context, fuel: nat, w: World, current: Path, t: Transition, h: Path)
    requires Structured(c.model) && t.name in c.model.transitions && c.model.transitions[t.name] == t
    requires t.target == Some(h) && h in c.model.vertices && IsHistory(c.model.vertices[h].kind)
    requires Rests(c.model, w, current) && Reaches(c.model, t, current) && fuel > 0
    ensures Pivot(t) <= |Dir(h)| && (Dir(h) !in Open(w.trace) ==> Pivot(t) < |Dir(h)|)
    ensures (forall q :: q in Chain(Pivot(t), Dir(h)) ==> q in c.model.vertices)
    ensures var w2 := AtOwner(c, w, current, t, h);
            && Fire(c, fuel, w, current, t) == Enter(c, fuel, w2, h, true)
            && SameAt(w.shallow, w2.shallow, Dir(h)) && SameAt(w.deep, w2.deep, Dir(h))
  {
    hide Enter, Fire, EnterAll, EnterUnrecorded, EnterRecorded;
    hide ExitAll, Lawful, RecordsOf, Open, ActiveChain, Departed, EnterStates, UpToTarget, EnterPath, ExitPath, LCA,
        Record;
    var m, p, low := c.model, Dir(h), Pivot(t);
    assert ValidTransition(m, t) && Owned(m, h) && Owned(m, p);
    assert AtOrAbove(p, h) && |p| >= |m.root|;
    HistoryPivot(m, t, h);
    Departs(c, fuel, w, current, t);
    var w' := Departed(c, w, current, t);
    if p !in Open(w.trace) {
      ClosedAbovePivot(m, w, current, t, p);
    }
    OwnHistoryKeepsRecord(c, w, current, t, h);
    EnterListIsChain(m, t);
    StopsAtTarget(c, fuel, w', EnterList(m, t), h);
    ChainOfVertices(m, low, p);
    EntersOnTheWay(c, fuel, w', low, h);
    EnterStatesTrace(c, w', Chain(low, p));
  }

  /** A transition to the deep history of a state `p` that has a record enters every state on the
      chain down to the record, outermost first and from below its pivot, and stops there. */
  lemma DeepHistoryReenters(c: Context, fuel: nat, w: World, current: Path, t: Transition, h: Path)
    requires Structured(c.model) && t.name in c.model.transitions && c.model.transitions[t.name] == t
    requires t.target == Some(h) && h in c.model.vertices && c.model.vertices[h].kind.DeepHistory?
    requires Rests(c.model, w, current) && Reaches(c.model, t, current) && fuel >= 2
    requires Dir(h) in w.deep
    ensures Dir(h) !in Open(w.trace) ==> Pivot(t) < |Dir(h)|
    ensures var leaf := w.deep[Dir(h)];
            && Pivot(t) <= |Dir(h)|
            && (forall q :: q in Chain(Pivot(t), leaf) ==> q in c.model.vertices)
            && Fire(c, fuel, w, current, t) ==
               Ran(EnterStates(c, Departed(c, w, current, t), Chain(Pivot(t), leaf)), Some(leaf))
  {
    hide Enter, Fire, EnterAll, EnterUnrecorded, EnterRecorded;
    hide ExitAll, Lawful, RecordsOf, Open, ActiveChain, Departed, EnterStates, Record;
    var m, p, leaf, low := c.model, Dir(h), w.deep[Dir(h)], Pivot(t);
    CoherentRecords(m, w);
    assert GoodRecordsAt(m, w.shallow, w.deep, p) && DeepRecord(m, p, leaf);
    ArrivesAtHistory(c, fuel, w, current, t, h);
    var w2 := AtOwner(c, w, current, t, h);
    ChainOfVertices(m, low, leaf);
    ChainSplits(low, p, leaf);
    EnterStatesSplit(c, Departed(c, w, current, t), Chain(low, p), Chain(|p|, leaf));
    EntersHistory(c, fuel, w2, h, true);
    BelowRoot(m, h);
    HistoryPathIsChain(m, p, leaf);
    DeepRecordIsReentered(c, fuel - 1, w2, |p|, leaf);
  }

  lemma ChildChain(child: Path)
    requires child != []
    ensures Chain(|Dir(child)|, child) == [child]
  {
  }

  /** A transition to the shallow history of a state with a record enters the state, if it is closed, and
      then the recorded child by default, so that below the child the initial transitions decide. */
  lemma ShallowHistoryReenters(c: Context, fuel: nat, w: World, current: Path, t: Transition, h: Path)
    requires Structured(c.model) && t.name in c.model.transitions && c.model.transitions[t.name] == t
    requires t.target == Some(h) && h in c.model.vertices && c.model.vertices[h].kind.ShallowHistory?
    requires Rests(c.model, w, current) && Reaches(c.model, t, current) && fuel > 0
    requires Dir(h) in w.shallow
    ensures Dir(h) !in Open(w.trace) ==> Pivot(t) < |Dir(h)|
    ensures var child := w.shallow[Dir(h)];
            && child in c.model.vertices && Dir(child) == Dir(h)
            && Pivot(t) <= |Dir(h)|
            && (forall q :: q in Chain(Pivot(t), Dir(h)) ==> q in c.model.vertices)
            && Fire(c, fuel, w, current, t) == Enter(c, fuel - 1, AtOwner(c, w, current, t, h), child, true)
  {
    hide Enter, Fire, EnterAll, EnterUnrecorded, EnterRecorded;
    hide ExitAll, Lawful, RecordsOf, Open, ActiveChain, Departed, EnterStates, Record, Chain, HistoryPath, AtOwner,
        HasHistory;
    var m, p, child := c.model, Dir(h), w.shallow[Dir(h)];
    CoherentRecords(m, w);
    assert GoodRecordsAt(m, w.shallow, w.deep, p) && ShallowRecord(m, p, child);
    ArrivesAtHistory(c, fuel, w, current, t, h);
    var w2 := AtOwner(c, w, current, t, h);
    EntersHistory(c, fuel, w2, h, true);
    BelowRoot(m, h);
    assert child[..|p|] == p;
    HistoryPathIsChain(m, p, child);
    ChildChain(child);
    EntersRecorded(c, fuel - 1, w2, [child], true);
  }

  lemma SharedUpToPivot(m: Model, current: Path, t: Transition, p: Path)
    requires Nested(m) && ValidTransition(m, t) && t.target.Some?
    requires current in m.vertices && Reaches(m, t, current)
    requires AtOrAbove(p, t.target.value) && |p| <= Pivot(t)
    ensures AtOrAbove(p, current)
  {
    if FromInitial(m, t) {
      InitialPivot(m, t);
    } else {
      PivotIsShared(m, t, current);
    }
    assert |current| >= Pivot(t) && current[..Pivot(t)] == t.target.value[..Pivot(t)];
    assert p == t.target.value[..Pivot(t)][..|p|];
  }

  lemma ClosedAbovePivot(m: Model, w: World, current: Path, t: Transition, p: Path)
    requires Structured(m) && ValidTransition(m, t) && t.target.Some?
    requires Rests(m, w, current) && Reaches(m, t, current)
    requires HasState(m, p) && AtOrAbove(p, t.target.value) && p !in Open(w.trace) && p != []
    ensures Pivot(t) < |p|
  {
    ActiveChainMembers(m, current, p);
    if |p| <= Pivot(t) {
      SharedUpToPivot(m, current, t, p);
    }
  }

  /** A transition aimed at a history vertex does not overwrite the records it is about to use, even
      when it leaves a state inside the vertex's owner. */
  lemma OwnHistoryKeepsRecord(c: Context, w: World, current: Path, t: Transition, h: Path)
    requires Reaches(c.model, t, current)
    requires t.target == Some(h) && h in c.model.vertices && IsHistory(c.model.vertices[h].kind)
    ensures SameAt(w.deep, Departed(c, w, current, t).deep, Dir(h))
    ensures SameAt(w.shallow, Departed(c, w, current, t).shallow, Dir(h))
  {
    var route := RouteOf(c.model, t, current);
    var w1 := if route.exit != [] then Record(c.model, w, current, HistoryOwner(c.model, t)) else w;
    ExitAllKeepsRecords(c, w1, route.exit);
  }

  /** Deep-history round trip. `leave` takes the machine out of `p` from the descendant `leaf`
      without aiming at a history vertex of `p`; by the time of `w`, whatever happened in
      between, `p` has not been entered again. Then `back`, aimed at the deep history `h` of
      `p`, re-enters exactly the states from `p` down to `leaf` and stops at `leaf`. */
  lemma DeepHistoryRoundTrip(
    c0: Context, w0: World, leaf: Path, leave: Transition,
    c: Context, fuel: nat, w: World, current: Path, back: Transition, h: Path)
    requires Structured(c.model) && c0.model == c.model
    requires leave.name in c.model.transitions && c.model.transitions[leave.name] == leave
    requires back.name in c.model.transitions && c.model.transitions[back.name] == back
    requires back.target == Some(h) && h in c.model.vertices && c.model.vertices[h].kind.DeepHistory?
    requires Rests(c.model, w0, leaf) && HasState(c.model, leaf) && IsAncestor(Dir(h), leaf)
    requires leave.target.Some? && leave.target.value in c.model.vertices && Reaches(c.model, leave, leaf)
    requires Pivot(leave) < |Dir(h)| && HistoryOwner(c.model, leave) != Some(Dir(h))
    requires Extends(Departed(c0, w0, leaf, leave), w) && Rests(c.model, w, current)
    requires Entered(Dir(h)) !in w.trace[|Departed(c0, w0, leaf, leave).trace|..]
    requires Reaches(c.model, back, current) && fuel >= 2
    ensures Pivot(back) < |Dir(h)|
    ensures var step := Fire(c, fuel, w, current, back);
            && step.Ran? && step.at == Some(leaf)
            && step.world.trace == Departed(c, w, current, back).trace + Entries(Chain(Pivot(back), leaf))
  {
    hide Enter, Fire, EnterAll, EnterUnrecorded, EnterRecorded;
    hide RouteOf, ExitAll, Lawful, RecordsOf;
    var m, p := c.model, Dir(h);
    var w1 := Departed(c0, w0, leaf, leave);
    assert Owned(m, h) && h != m.root;
    ActiveChainMembers(m, leaf, p);
    LeavingRecords(c0, w0, leaf, leave, p, DeepHistory);
    Departs(c0, fuel, w0, leaf, leave);
    ClosedStatesKeepRecords(m, w.trace, |w1.trace|, p, DeepHistory);
    DeepHistoryReenters(c, fuel, w, current, back, h);
    EnterStatesTrace(c, Departed(c, w, current, back), Chain(Pivot(back), leaf));
  }

  /** Shallow-history round trip. `leave` takes the machine out of `p` from the descendant `leaf`
      without aiming at a history vertex of `p`, and `p` has not been entered again by the time
      of `w`. Then `back`, aimed at the shallow history `h` of `p`, enters `p` and by default the
      child of `p` that `leaf` was in. */
  lemma ShallowHistoryRoundTrip(
    c0: Context, w0: World, leaf: Path, leave: Transition,
    c: Context, fuel: nat, w: World, current: Path, back: Transition, h: Path)
    requires Structured(c.model) && c0.model == c.model
    requires leave.name in c.model.transitions && c.model.transitions[leave.name] == leave
    requires back.name in c.model.transitions && c.model.transitions[back.name] == back
    requires back.target == Some(h) && h in c.model.vertices && c.model.vertices[h].kind.ShallowHistory?
    requires Rests(c.model, w0, leaf) && HasState(c.model, leaf) && IsAncestor(Dir(h), leaf)
    requires leave.target.Some? && leave.target.value in c.model.vertices && Reaches(c.model, leave, leaf)
    requires Pivot(leave) < |Dir(h)| && HistoryOwner(c.model, leave) != Some(Dir(h))
    requires Extends(Departed(c0, w0, leaf, leave), w) && Rests(c.model, w, current)
    requires Entered(Dir(h)) !in w.trace[|Departed(c0, w0, leaf, leave).trace|..]
    requires Reaches(c.model, back, current) && fuel > 0
    ensures var child := leaf[..|Dir(h)| + 1];
            && child in c.model.vertices && Pivot(back) < |Dir(h)|
            && (forall q :: q in Chain(Pivot(back), Dir(h)) ==> q in c.model.vertices)
            && Fire(c, fuel, w, current, back) == Enter(c, fuel - 1, AtOwner(c, w, current, back, h), child, true)
  {
    hide Enter, Fire, EnterAll, EnterUnrecorded, EnterRecorded;
    hide RouteOf, ExitAll, Lawful, RecordsOf;
    var m, p := c.model, Dir(h);
    var w1 := Departed(c0, w0, leaf, leave);
    assert Owned(m, h) && h != m.root;
    ActiveChainMembers(m, leaf, p);
    LeavingRecords(c0, w0, leaf, leave, p, ShallowHistory);
    Departs(c0, fuel, w0, leaf, leave);
    ClosedStatesKeepRecords(m, w.trace, |w1.trace|, p, ShallowHistory);
    ShallowHistoryReenters(c, fuel, w, current, back, h);
  }
}
