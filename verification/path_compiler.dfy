/** Compiling, for every transition and current element, the states to leave and to enter. */
module PathCompiler {
  import opened Options
  import opened Paths
  import opened Models

  datatype Route = Route(enter: seq<Path>, exit: seq<Path>)

  /** From `target` up to, not including, `lca`; the root is never entered. Outermost first. */
  function EnterPath(root: Path, lca: Path, target: Path): seq<Path>
    decreases |target|
  {
    if target == lca || target == root || target == [] then []
    else EnterPath(root, lca, Dir(target)) + [target]
  }

  /** From `current` up to, not including, `lca`, but never past the root. Innermost first. */
  function ExitPath(root: Path, lca: Path, current: Path): seq<Path>
    decreases |current|
  {
    if current == lca || current == [] then []
    else if current == root then [current]
    else [current] + ExitPath(root, lca, Dir(current))
  }

  function CommonAncestor(t: Transition): Path {
    if t.target.None? then t.source
    else if t.kind.External? && IsAncestor(t.source, t.target.value) then Dir(t.source)
    else LCA(t.source, t.target.value)
  }

  function EnterList(m: Model, t: Transition): seq<Path> {
    var enter := if t.target.None? then [] else EnterPath(m.root, CommonAncestor(t), t.target.value);
    if t.kind.Self? then [t.source] + enter else enter
  }

  function ExitList(m: Model, t: Transition, current: Path): seq<Path> {
    if t.kind.Internal? then []
    else
      var exit := ExitPath(m.root, CommonAncestor(t), current);
      if t.kind.Self? && (exit == [] || exit[|exit| - 1] != t.source) then exit + [t.source] else exit
  }

  predicate FromInitial(m: Model, t: Transition) {
    t.source in m.vertices && m.vertices[t.source].kind.Initial?
  }

  /** The elements from which `t` can be fired. */
  predicate Reaches(m: Model, t: Transition, current: Path) {
    && t.source in m.vertices
    && if FromInitial(m, t) then current == Dir(t.source)
       else current in m.vertices && AtOrAbove(t.source, current)
  }

  function RouteOf(m: Model, t: Transition, current: Path): Route
    requires Reaches(m, t, current)
  {
    Route(EnterList(m, t), if FromInitial(m, t) then [t.source] else ExitList(m, t, current))
  }

  lemma EntersList(m: Model, t: Transition, current: Path)
    requires Reaches(m, t, current)
    ensures RouteOf(m, t, current).enter == EnterList(m, t)
  {
  }

  /** What the routes compiled for `t` must be. */
  ghost predicate CompiledRoutes(m: Model, t: Transition, routes: map<Path, Route>) {
    forall q ::
      && (q in routes <==> Reaches(m, t, q))
      && (q in routes ==> routes[q] == RouteOf(m, t, q))
  }

  method FinalizeEnterPath(root: Path, lca: Path, target: Option<Path>) returns (enter: seq<Path>)
    ensures enter == if target.None? then [] else EnterPath(root, lca, target.value)
  {
    enter := [];
    if target.None? {
      return;
    }
    var entering := target.value;
    while entering != lca && entering != root && entering != []
      invariant EnterPath(root, lca, target.value) == EnterPath(root, lca, entering) + enter
      decreases |entering|
    {
      enter := [entering] + enter;
      entering := Dir(entering);
    }
  }

  lemma ExitPathStep(root: Path, lca: Path, current: Path)
    ensures ExitPath(root, lca, current) ==
            if current == lca || current == [] then []
            else if current == root then [current]
            else [current] + ExitPath(root, lca, Dir(current))
  {
  }

  method FinalizeExitPath(root: Path, lca: Path, current: Path, t: Transition) returns (exit: seq<Path>)
    requires AtOrAbove(root, current) && root != []
    ensures t.kind.Internal? ==> exit == []
    ensures !t.kind.Internal? ==>
              var path := ExitPath(root, lca, current);
              exit == if t.kind.Self? && (path == [] || path[|path| - 1] != t.source) then path + [t.source] else path
  {
    exit := [];
    if t.kind.Internal? {
      return;
    }
    hide ExitPath;
    var exiting := current;
    while exiting != lca && exiting != []
      invariant AtOrAbove(root, exiting)
      invariant ExitPath(root, lca, current) == exit + ExitPath(root, lca, exiting)
      decreases |exiting|
    {
      ExitPathStep(root, lca, exiting);
      exit := exit + [exiting];
      if exiting == root {
        break;
      }
      exiting := Dir(exiting);
    }
    ExitPathStep(root, lca, exiting);
    assert exit == ExitPath(root, lca, current);
    if t.kind.Self? && (|exit| == 0 || exit[|exit| - 1] != t.source) {
      exit := exit + [t.source];
    }
  }

  method RouteFrom(m: Model, t: Transition, lca: Path, enter: seq<Path>, q: Path) returns (route: Route)
    requires Nested(m) && Reaches(m, t, q) && !FromInitial(m, t)
    requires lca == CommonAncestor(t) && enter == EnterList(m, t)
    ensures route == RouteOf(m, t, q)
  {
    hide EnterPath, ExitPath, LCA;
    assert Owned(m, q);
    var exit := FinalizeExitPath(m.root, lca, q, t);
    route := Route(enter, exit);
  }

  /** One route for every vertex at or below the source. */
  method RoutesBelow(m: Model, t: Transition, lca: Path, enter: seq<Path>) returns (routes: map<Path, Route>)
    requires Nested(m) && t.source in m.vertices && !FromInitial(m, t)
    requires lca == CommonAncestor(t) && enter == EnterList(m, t)
    ensures forall q :: q in routes <==> q in m.vertices && AtOrAbove(t.source, q)
    ensures forall q :: q in routes ==> routes[q] == RouteOf(m, t, q)
  {
    hide RouteOf, EnterList, ExitList, CommonAncestor, Nested;
    routes := map[];
    var todo := m.vertices.Keys;
    while todo != {}
      invariant todo <= m.vertices.Keys
      invariant forall q :: q in routes <==> q in m.vertices && q !in todo && AtOrAbove(t.source, q)
      invariant forall q :: q in routes ==> routes[q] == RouteOf(m, t, q)
      decreases |todo|
    {
      var q :| q in todo;
      todo := todo - {q};
      if q == t.source || IsAncestor(t.source, q) {
        var route := RouteFrom(m, t, lca, enter, q);
        routes := routes[q := route];
      }
    }
  }

  method FinalizeTransitionPathsFor(m: Model, t: Transition) returns (routes: map<Path, Route>)
    requires Nested(m)
    ensures CompiledRoutes(m, t, routes)
    ensures t.source !in m.vertices ==> routes == map[]
    ensures t.source in m.vertices && m.vertices[t.source].kind.Initial? ==> routes.Keys == {Dir(t.source)}
    ensures t.source in m.vertices && !m.vertices[t.source].kind.Initial? ==>
              forall q :: q in routes <==> q in m.vertices && AtOrAbove(t.source, q)
  {
    hide EnterPath, ExitPath, LCA;
    routes := map[];
    if t.source !in m.vertices {
      return;
    }
    var lca := if t.target.None? then t.source else LCA(t.source, t.target.value);
    if t.kind.External? && t.target.Some? && IsAncestor(t.source, t.target.value) {
      lca := Dir(t.source);
    }
    var enter := FinalizeEnterPath(m.root, lca, t.target);
    if t.kind.Self? {
      enter := [t.source] + enter;
    }
    if m.vertices[t.source].kind.Initial? {
      routes := map[Dir(t.source) := Route(enter, [t.source])];
      return;
    }
    routes := RoutesBelow(m, t, lca, enter);
  }

  // ----- path algebra -----

  lemma {:induction false} EnterPathIsChain(root: Path, lca: Path, target: Path)
    requires AtOrAbove(root, target) && AtOrAbove(lca, target) && |root| <= |lca|
    ensures EnterPath(root, lca, target) == Chain(|lca|, target)
    decreases |target|
  {
    if target != lca {
      assert target != root && target != [];
      assert AtOrAbove(lca, Dir(target)) && AtOrAbove(root, Dir(target));
      EnterPathIsChain(root, lca, Dir(target));
    }
  }

  lemma {:induction false} ExitPathIsReversedChain(root: Path, lca: Path, current: Path)
    requires AtOrAbove(root, current) && AtOrAbove(lca, current)
    requires |root| <= |lca| || |root| == |lca| + 1
    ensures ExitPath(root, lca, current) == Reverse(Chain(|lca|, current))
    decreases |current|
  {
    if current != lca && current != root {
      assert AtOrAbove(lca, Dir(current)) && AtOrAbove(root, Dir(current));
      ExitPathIsReversedChain(root, lca, Dir(current));
      assert Chain(|lca|, current)[..|Chain(|lca|, current)| - 1] == Chain(|lca|, Dir(current));
    } else if current != lca {
      assert Chain(|lca|, current) == Chain(|lca|, Dir(current)) + [current];
      assert Chain(|lca|, Dir(current)) == [];
    }
  }

  /** The part of an enter list the executor uses: it returns at the first copy of the target. */
  function UpToTarget(enter: seq<Path>, target: Path): seq<Path> {
    if enter == [] then []
    else if enter[0] == target then [target]
    else [enter[0]] + UpToTarget(enter[1..], target)
  }

  lemma {:induction false} UpToTargetOfChain(low: nat, target: Path, n: nat)
    requires low <= n <= |target|
    ensures UpToTarget(Chain(low, target)[n - low..], target) == Chain(low, target)[n - low..]
    decreases |target| - n
  {
    ChainElements(low, target);
    if n < |target| {
      UpToTargetOfChain(low, target, n + 1);
      var rest := Chain(low, target)[n - low..];
      assert rest[1..] == Chain(low, target)[n + 1 - low..];
      if rest[0] == target {
        assert |rest[0]| == n + 1;
      }
    }
  }

  /** Where the routes of `t` meet: everything deeper on the source side is left, and
      everything deeper on the target side is entered. */
  function Pivot(t: Transition): nat
    requires t.target.Some?
  {
    if FromSelf(t) then |Dir(t.source)| else |LCA(t.source, t.target.value)|
  }

  predicate FromSelf(t: Transition) {
    t.target == Some(t.source)
  }

  lemma PivotIsShared(m: Model, t: Transition, current: Path)
    requires Nested(m) && ValidTransition(m, t) && t.target.Some?
    requires current in m.vertices && AtOrAbove(t.source, current)
    ensures var lca := CommonAncestor(t);
            && lca == (if FromSelf(t) then Dir(t.source) else LCA(t.source, t.target.value))
            && |lca| == Pivot(t)
            && AtOrAbove(lca, current) && AtOrAbove(lca, t.target.value)
            && (FromSelf(t) || AtOrAbove(m.root, lca))
            && |m.root| <= |lca| + 1
  {
    var s, g := t.source, t.target.value;
    LCAIsLongestCommonPrefix(s, g);
    assert Owned(m, s) && Owned(m, g) && Owned(m, current);
    assert AtOrAbove(CommonAncestor(t), s);
    assert s[..|CommonAncestor(t)|] == current[..|CommonAncestor(t)|];
  }

  lemma SelfKind(m: Model, t: Transition)
    requires ValidTransition(m, t) && t.target.Some?
    ensures (t.kind.Self? <==> FromSelf(t)) && !t.kind.Internal?
  {
  }

  lemma SelfPivot(m: Model, t: Transition, current: Path)
    requires Nested(m) && ValidTransition(m, t) && FromSelf(t) && AtOrAbove(t.source, current)
    ensures |Dir(t.source)| < |current| && current[..|Dir(t.source)| + 1] == t.source
  {
    assert Owned(m, t.source);
  }

  lemma ExitListIsReversedChain(m: Model, t: Transition, current: Path)
    requires Nested(m) && ValidTransition(m, t) && t.target.Some?
    requires current in m.vertices && AtOrAbove(t.source, current)
    ensures Pivot(t) <= |current|
    ensures ExitList(m, t, current) == Reverse(Chain(Pivot(t), current))
  {
    hide Reverse, Chain, LCA, CommonAncestor, ExitPath, ExitList, InferredKind, ValidTransition;
    PivotIsShared(m, t, current);
    SelfKind(m, t);
    assert Owned(m, current);
    if FromSelf(t) {
      SelfPivot(m, t, current);
    }
    var lca := CommonAncestor(t);
    ExitPathIsReversedChain(m.root, lca, current);
    if FromSelf(t) {
      LastExited(|lca|, current);
    }
    hide Nested, Dir;
    ExitListWithout(m, t, current);
  }

  /** A self-transition's source is appended only where the climb has not ended with it. */
  lemma ExitListWithout(m: Model, t: Transition, current: Path)
    requires !t.kind.Internal?
    requires t.kind.Self? ==>
               var exit := ExitPath(m.root, CommonAncestor(t), current);
               exit != [] && exit[|exit| - 1] == t.source
    ensures ExitList(m, t, current) == ExitPath(m.root, CommonAncestor(t), current)
  {
  }

  lemma LastExited(low: nat, current: Path)
    requires low < |current|
    ensures var exit := Reverse(Chain(low, current)); exit != [] && exit[|exit| - 1] == current[..low + 1]
  {
    ChainElements(low, current);
    ReverseEnds(Chain(low, current));
  }

  lemma EnterListIsChain(m: Model, t: Transition)
    requires Nested(m) && ValidTransition(m, t) && t.target.Some?
    ensures Pivot(t) <= |t.target.value|
    ensures UpToTarget(EnterList(m, t), t.target.value) == Chain(Pivot(t), t.target.value)
  {
    PivotIsShared(m, t, t.source);
    var g, low := t.target.value, Pivot(t);
    if FromSelf(t) {
      assert Owned(m, g) && Chain(low, Dir(g)) == [];
    } else {
      assert Owned(m, g);
      EnterPathIsChain(m.root, CommonAncestor(t), g);
      UpToTargetOfChain(low, g, low);
      assert Chain(low, g)[0..] == Chain(low, g);
    }
  }

  /** Path algebra: dropping the exit list from the current element's chain and appending
      the enter list gives the target's chain. */
  lemma RoutesJoin(m: Model, t: Transition, current: Path)
    requires Nested(m) && ValidTransition(m, t) && t.target.Some?
    requires Reaches(m, t, current) && !FromInitial(m, t)
    ensures var low := Pivot(t);
            var route := RouteOf(m, t, current);
            && low <= |current| && low <= |t.target.value|
            && current[..low] == t.target.value[..low]
            && Chain(0, current) == Chain(0, current[..low]) + Reverse(route.exit)
            && Chain(0, t.target.value) == Chain(0, current[..low]) + UpToTarget(route.enter, t.target.value)
  {
    PivotIsShared(m, t, current);
    ExitListIsReversedChain(m, t, current);
    EnterListIsChain(m, t);
    ReverseTwice(Chain(Pivot(t), current));
    ChainSplits(0, CommonAncestor(t), current);
    ChainSplits(0, CommonAncestor(t), t.target.value);
  }

  lemma {:induction false} ReverseEnds<T>(s: seq<T>)
    requires s != []
    ensures Reverse(s)[|s| - 1] == s[0] && Reverse(s)[0] == s[|s| - 1]
  {
    if |s| > 1 {
      ReverseEnds(s[..|s| - 1]);
    }
  }

  lemma {:induction false} ReverseSnoc<T>(s: seq<T>, x: T)
    ensures Reverse([x] + s) == Reverse(s) + [x]
  {
    if s != [] {
      ReverseSnoc(s[..|s| - 1], x);
      assert ([x] + s)[..|s|] == [x] + s[..|s| - 1];
    }
  }

  lemma {:induction false} ReverseTwice<T>(s: seq<T>)
    ensures Reverse(Reverse(s)) == s
  {
    if s != [] {
      ReverseTwice(s[..|s| - 1]);
      ReverseSnoc(Reverse(s[..|s| - 1]), s[|s| - 1]);
    }
  }

  // ----- declared kinds -----

  /** Whatever its target, a transition declared a self-transition leaves its source last of all and
      enters it first. */
  lemma SelfLeavesAndReenters(m: Model, t: Transition, current: Path)
    requires t.kind.Self?
    ensures var exit, enter := ExitList(m, t, current), EnterList(m, t);
            exit != [] && exit[|exit| - 1] == t.source && enter != [] && enter[0] == t.source
  {
  }

  /** A transition declared external leaves and re-enters its source even when its target is inside
      it; the root alone is never entered again. */
  lemma ExternalLeavesAndReenters(m: Model, t: Transition, current: Path)
    requires Nested(m) && t.kind.External? && t.source in m.vertices && t.source != m.root
    requires t.target.Some? && IsAncestor(t.source, t.target.value)
    requires current in m.vertices && AtOrAbove(t.source, current)
    ensures ExitList(m, t, current) == Reverse(Chain(|Dir(t.source)|, current))
    ensures EnterList(m, t) == Chain(|Dir(t.source)|, t.target.value)
    ensures t.source in ExitList(m, t, current) && t.source in EnterList(m, t)
  {
    var s, g, lca := t.source, t.target.value, Dir(t.source);
    ExternalLists(m, t, current);
    assert Owned(m, s);
    AroundSource(m.root, s, current);
    AroundSource(m.root, s, g);
    hide Nested, Reverse, Chain, ExitPath, EnterPath, LCA, ExitList, EnterList;
    ExitPathIsReversedChain(m.root, lca, current);
    EnterPathIsChain(m.root, lca, g);
    ChainBegins(s, current);
    ChainBegins(s, g);
    ReverseSnoc(Chain(|s|, current), s);
  }

  lemma ExternalLists(m: Model, t: Transition, current: Path)
    requires t.kind.External? && t.target.Some? && IsAncestor(t.source, t.target.value)
    ensures ExitList(m, t, current) == ExitPath(m.root, Dir(t.source), current)
    ensures EnterList(m, t) == EnterPath(m.root, Dir(t.source), t.target.value)
  {
  }

  lemma AroundSource(root: Path, s: Path, p: Path)
    requires AtOrAbove(root, s) && s != root && AtOrAbove(s, p)
    ensures s != [] && AtOrAbove(Dir(s), p) && AtOrAbove(root, p) && |root| <= |Dir(s)|
  {
    assert s[..|root|] == p[..|root|];
  }

  lemma ChainBegins(s: Path, p: Path)
    requires s != [] && AtOrAbove(s, p)
    ensures Chain(|Dir(s)|, p) == [s] + Chain(|s|, p)
  {
    ChainSplits(|Dir(s)|, s, p);
    assert Chain(|Dir(s)|, Dir(s)) == [];
  }
}
