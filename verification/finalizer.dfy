/** The runtime-ready form of a model: every derived index, built by loops over the members. */
module Finalizer {
  import opened Options
  import opened Paths
  import opened Models
  import opened PathCompiler
  import opened Semantics
  import opened DispatchTables
  import opened TableBuilder

  datatype HistoryKey = HistoryKey(stateName: Path, skipOwner: Option<Path>)

  datatype Finalized = Finalized(
    transitionPaths: map<Path, map<Path, Route>>,
    historyPaths: map<Path, map<Path, seq<Path>>>,
    historyTargets: map<HistoryKey, map<Path, Path>>,
    transitionMap: map<Path, TransitionRow>,
    deferredMap: map<Path, DeferredRow>)

  // ----- history caches -----

  predicate IsHistoryOf(m: Model, h: Path, owner: Path) {
    h in m.vertices && IsHistory(m.vertices[h].kind) && h != [] && Dir(h) == owner
  }

  predicate OwnsHistory(m: Model, owner: Path) {
    exists h :: h in m.vertices && IsHistoryOf(m, h, owner)
  }

  /** Does leaving `s` record something for the history vertex `h`? */
  predicate Remembers(m: Model, s: Path, skip: Option<Path>, h: Path) {
    && h in m.vertices && h != [] && IsHistory(m.vertices[h].kind)
    && IsAncestor(Dir(h), s) && Dir(h) in m.vertices && IsState(m.vertices[Dir(h)].kind)
    && skip != Some(Dir(h))
  }

  function Remembered(m: Model, s: Path, h: Path): Path
    requires h in m.vertices && IsAncestor(Dir(h), s)
  {
    if m.vertices[h].kind.ShallowHistory? then s[..|Dir(h)| + 1] else s
  }

  ghost predicate TargetsFor(m: Model, s: Path, skip: Option<Path>, targets: map<Path, Path>) {
    forall h ::
      && (h in targets <==> Remembers(m, s, skip, h))
      && (h in targets ==> targets[h] == Remembered(m, s, h))
  }

  function LookupPath(paths: map<Path, map<Path, seq<Path>>>, owner: Path, target: Path): seq<Path> {
    if owner in paths && target in paths[owner] then paths[owner][target] else []
  }

  function LookupTargets(targets: map<HistoryKey, map<Path, Path>>, s: Path, skip: Option<Path>): map<Path, Path> {
    if HistoryKey(s, skip) in targets then targets[HistoryKey(s, skip)] else map[]
  }

  ghost predicate HistoryCaches(m: Model, paths: map<Path, map<Path, seq<Path>>>,
          targets: map<HistoryKey, map<Path, Path>>)
  {
    && (forall owner, target :: OwnsHistory(m, owner) ==>
         LookupPath(paths, owner, target) == HistoryPath(m, owner, target))
    && (forall s: Path, skip: Option<Path> :: HasState(m, s) && (skip.Some? ==> OwnsHistory(m, skip.value)) ==>
          TargetsFor(m, s, skip, LookupTargets(targets, s, skip)))
  }

  ghost predicate GroupedByOwner(m: Model, byOwner: map<Path, set<Path>>) {
    && (forall o :: o in byOwner <==> OwnsHistory(m, o))
    && (forall o, h :: o in byOwner ==> (h in byOwner[o] <==> IsHistoryOf(m, h, o)))
  }

  method GroupHistories(m: Model) returns (byOwner: map<Path, set<Path>>)
    ensures GroupedByOwner(m, byOwner)
  {
    byOwner := map[];
    var todo := m.vertices.Keys;
    while todo != {}
      invariant todo <= m.vertices.Keys
      invariant forall o, h :: (o in byOwner && h in byOwner[o]) <==> IsHistoryOf(m, h, o) && h !in todo
      invariant forall o :: o in byOwner ==> byOwner[o] != {}
      decreases |todo|
    {
      var h :| h in todo;
      todo := todo - {h};
      if IsHistory(m.vertices[h].kind) && h != [] {
        var owner := Dir(h);
        byOwner := byOwner[owner := (if owner in byOwner then byOwner[owner] else {}) + {h}];
      }
    }
    forall o ensures o in byOwner <==> OwnsHistory(m, o) {
      if o in byOwner {
        var h :| h in byOwner[o];
        assert IsHistoryOf(m, h, o);
      }
    }
  }

  method RememberAt(m: Model, histories: set<Path>, s: Path, child: Path, targets: map<Path, Path>)
    returns (after: map<Path, Path>)
    requires histories <= m.vertices.Keys
    ensures forall h :: h in after <==> h in targets || h in histories
    ensures forall h :: h in after ==>
              after[h] ==
                if h !in histories then targets[h]
                else if m.vertices[h].kind.ShallowHistory? then child else s
  {
    after := targets;
    var todo := histories;
    while todo != {}
      invariant todo <= histories
      invariant forall h :: h in after <==> h in targets || (h in histories && h !in todo)
      invariant forall h :: h in after && (h !in histories || h in todo) ==> after[h] == targets[h]
      invariant forall h :: h in histories && h !in todo ==>
                  after[h] == if m.vertices[h].kind.ShallowHistory? then child else s
      decreases |todo|
    {
      var h :| h in todo;
      todo := todo - {h};
      after := after[h := if m.vertices[h].kind.ShallowHistory? then child else s];
    }
  }

  lemma RemembersAt(m: Model, s: Path, skip: Option<Path>, h: Path, parent: Path)
    requires AtOrAbove(parent, s) && |parent| < |s|
    ensures Remembers(m, s, skip, h) && |Dir(h)| == |parent| <==>
            IsHistoryOf(m, h, parent) && parent in m.vertices && IsState(m.vertices[parent].kind)
               && skip != Some(parent)
  {
  }

  /** `targets` is right for the history vertices whose owner is longer than `n`. */
  ghost predicate TargetsBelow(m: Model, s: Path, skip: Option<Path>, n: nat, targets: map<Path, Path>) {
    forall h ::
      && (h in targets <==> Remembers(m, s, skip, h) && |Dir(h)| > n)
      && (h in targets ==> targets[h] == Remembered(m, s, h))
  }

  /** The history vertices at one owner on the way out. */
  function HistoriesAt(m: Model, byOwner: map<Path, set<Path>>, skip: Option<Path>, parent: Path): set<Path> {
    if skip != Some(parent) && HasState(m, parent) && parent in byOwner then byOwner[parent] else {}
  }

  lemma OwnerRemembered(m: Model, byOwner: map<Path, set<Path>>, s: Path, skip: Option<Path>, parent: Path,
                        before: map<Path, Path>, after: map<Path, Path>)
    requires GroupedByOwner(m, byOwner) && AtOrAbove(parent, s) && 0 < |parent| < |s|
    requires TargetsBelow(m, s, skip, |parent|, before)
    requires forall h :: h in after <==> h in before || h in HistoriesAt(m, byOwner, skip, parent)
    requires forall h :: h in after ==>
               after[h] == if h !in HistoriesAt(m, byOwner, skip, parent) then before[h]
                           else if h in m.vertices && m.vertices[h].kind.ShallowHistory? then s[..|parent| + 1] else s
    ensures TargetsBelow(m, s, skip, |parent| - 1, after)
  {
    forall h
      ensures h in after <==> Remembers(m, s, skip, h) && |Dir(h)| >= |parent|
    {
      RemembersAt(m, s, skip, h, parent);
    }
  }

  /** One owner on the way out, unless it is the skipped one. */
  method RememberOwner(m: Model, byOwner: map<Path, set<Path>>, s: Path, skip: Option<Path>,
                       parent: Path, child: Path, targets: map<Path, Path>)
    returns (after: map<Path, Path>)
    requires GroupedByOwner(m, byOwner) && AtOrAbove(parent, s) && 0 < |parent| < |s| && child == s[..|parent| + 1]
    requires TargetsBelow(m, s, skip, |parent|, targets)
    ensures TargetsBelow(m, s, skip, |parent| - 1, after)
  {
    hide TargetsBelow, GroupedByOwner;
    after := targets;
    if Some(parent) != skip {
      if parent in m.vertices && IsState(m.vertices[parent].kind) {
        var histories := if parent in byOwner then byOwner[parent] else {};
        GroupedAreVertices(m, byOwner, parent);
        after := RememberAt(m, histories, s, child, targets);
      }
    }
    OwnerRemembered(m, byOwner, s, skip, parent, targets, after);
  }

  method HistoryTargetsForState(m: Model, byOwner: map<Path, set<Path>>, s: Path, skip: Option<Path>)
    returns (targets: map<Path, Path>)
    requires Nested(m) && GroupedByOwner(m, byOwner) && s in m.vertices
    ensures TargetsFor(m, s, skip, targets)
  {
    targets := map[];
    assert Owned(m, s);
    var child := s;
    var parent := Dir(child);
    NothingRememberedBelow(m, s, skip);
    while parent != []
      invariant AtOrAbove(parent, s) && |parent| < |s| && child == s[..|parent| + 1]
      invariant parent != [] ==> AtOrAbove(m.root, parent)
      invariant TargetsBelow(m, s, skip, |parent|, targets)
      decreases |parent|
    {
      hide TargetsBelow, GroupedByOwner;
      targets := RememberOwner(m, byOwner, s, skip, parent, child, targets);
      if parent == m.root {
        break;
      }
      child := parent;
      parent := Dir(parent);
    }
    RootIsLast(m, s, skip, targets);
  }

  lemma GroupedAreVertices(m: Model, byOwner: map<Path, set<Path>>, owner: Path)
    requires GroupedByOwner(m, byOwner)
    ensures owner in byOwner ==> byOwner[owner] <= m.vertices.Keys
  {
  }

  lemma NothingRememberedBelow(m: Model, s: Path, skip: Option<Path>)
    ensures TargetsBelow(m, s, skip, |Dir(s)|, map[])
  {
  }

  lemma RootIsLast(m: Model, s: Path, skip: Option<Path>, targets: map<Path, Path>)
    requires Nested(m) && TargetsBelow(m, s, skip, 0, targets)
    ensures TargetsFor(m, s, skip, targets)
  {
    forall h | Remembers(m, s, skip, h)
      ensures |Dir(h)| > 0
    {
      RememberedBelowRoot(m, s, skip, h);
    }
  }

  lemma RememberedBelowRoot(m: Model, s: Path, skip: Option<Path>, h: Path)
    requires Nested(m) && Remembers(m, s, skip, h)
    ensures |Dir(h)| >= 1
  {
    assert Owned(m, Dir(h));
  }

  method HistoryPathsFor(m: Model, owner: Path) returns (paths: map<Path, seq<Path>>)
    requires Nested(m) && OwnsHistory(m, owner)
    ensures forall t :: (if t in paths then paths[t] else []) == HistoryPath(m, owner, t)
  {
    paths := map[];
    var todo := m.vertices.Keys;
    while todo != {}
      invariant todo <= m.vertices.Keys
      invariant forall t :: t in paths ==>
          HasState(m, t) && IsAncestor(owner, t) && paths[t] == EnterPath(m.root, owner, t)
      invariant forall t :: t !in todo && HasState(m, t) && IsAncestor(owner, t) ==> t in paths
      decreases |todo|
    {
      var target :| target in todo;
      todo := todo - {target};
      if IsState(m.vertices[target].kind) && target != owner && IsAncestor(owner, target) {
        assert Owned(m, target);
        var enter := FinalizeEnterPath(m.root, owner, Some(target));
        paths := paths[target := enter];
      }
    }
  }

  type TargetCache = map<HistoryKey, map<Path, Path>>

  ghost predicate Cached(m: Model, all: TargetCache, k: HistoryKey) {
    TargetsFor(m, k.stateName, k.skipOwner, LookupTargets(all, k.stateName, k.skipOwner))
  }

  ghost predicate SameEntry(before: TargetCache, after: TargetCache, k: HistoryKey) {
    (k in after <==> k in before) && (k in before ==> after[k] == before[k])
  }

  lemma SameEntryCached(m: Model, before: TargetCache, after: TargetCache, k: HistoryKey)
    requires SameEntry(before, after, k) && Cached(m, before, k)
    ensures Cached(m, after, k)
  {
  }

  /** Empty target maps are not stored. */
  method CacheTargets(m: Model, byOwner: map<Path, set<Path>>, k: HistoryKey, all: TargetCache)
    returns (after: TargetCache)
    requires Nested(m) && GroupedByOwner(m, byOwner) && k.stateName in m.vertices && k !in all
    ensures Cached(m, after, k)
    ensures forall other :: other != k ==> SameEntry(all, after, other)
  {
    var targets := HistoryTargetsForState(m, byOwner, k.stateName, k.skipOwner);
    if |targets| > 0 {
      after := all[k := targets];
      assert LookupTargets(after, k.stateName, k.skipOwner) == targets;
    } else {
      after := all;
      assert targets == map[] && LookupTargets(after, k.stateName, k.skipOwner) == targets;
    }
  }

  method CacheState(m: Model, byOwner: map<Path, set<Path>>, skips: set<Option<Path>>, s: Path, all: TargetCache)
    returns (after: TargetCache)
    requires Nested(m) && GroupedByOwner(m, byOwner) && s in m.vertices
    requires forall skip :: HistoryKey(s, skip) !in all
    ensures forall skip :: skip in skips ==> Cached(m, after, HistoryKey(s, skip))
    ensures forall k: HistoryKey :: k.stateName != s ==> SameEntry(all, after, k)
  {
    hide Cached;
    after := all;
    var todo := skips;
    while todo != {}
      invariant todo <= skips
      invariant forall k: HistoryKey :: k.stateName != s || k.skipOwner in todo ==> SameEntry(all, after, k)
      invariant forall skip :: skip in skips - todo ==> Cached(m, after, HistoryKey(s, skip))
      decreases |todo|
    {
      var skip :| skip in todo;
      assert SameEntry(all, after, HistoryKey(s, skip));
      todo := todo - {skip};
      ghost var before := after;
      after := CacheTargets(m, byOwner, HistoryKey(s, skip), after);
      forall k: HistoryKey | k.stateName != s || k.skipOwner in todo ensures SameEntry(all, after, k) {
        assert k != HistoryKey(s, skip) && SameEntry(all, before, k) && SameEntry(before, after, k);
      }
      forall x | x in skips - todo ensures Cached(m, after, HistoryKey(s, x)) {
        if x != skip {
          SameEntryCached(m, before, after, HistoryKey(s, x));
        }
      }
    }
  }

  method BuildHistoryCaches(m: Model)
    returns (paths: map<Path, map<Path, seq<Path>>>, targets: map<HistoryKey, map<Path, Path>>)
    requires Nested(m)
    ensures HistoryCaches(m, paths, targets)
  {
    var byOwner := GroupHistories(m);
    paths, targets := map[], map[];
    var owners := byOwner.Keys;
    while owners != {}
      invariant owners <= byOwner.Keys
      invariant forall o, t :: o in byOwner && o !in owners ==> LookupPath(paths, o, t) == HistoryPath(m, o, t)
      decreases |owners|
    {
      var owner :| owner in owners;
      owners := owners - {owner};
      var forOwner := HistoryPathsFor(m, owner);
      paths := paths[owner := forOwner];
    }
    var skips := {None} + set o | o in byOwner :: Some(o);
    targets := CacheStates(m, byOwner, skips);
    forall s: Path, skip: Option<Path> | HasState(m, s) && (skip.Some? ==> OwnsHistory(m, skip.value))
      ensures TargetsFor(m, s, skip, LookupTargets(targets, s, skip))
    {
      assert skip.Some? ==> skip.value in byOwner;
      assert skip in skips;
      assert Cached(m, targets, HistoryKey(s, skip));
    }
  }

  method CacheStates(m: Model, byOwner: map<Path, set<Path>>, skips: set<Option<Path>>) returns (targets: TargetCache)
    requires Nested(m) && GroupedByOwner(m, byOwner)
    ensures forall s, skip :: HasState(m, s) && skip in skips ==> Cached(m, targets, HistoryKey(s, skip))
  {
    hide Cached;
    targets := map[];
    var todo := m.vertices.Keys;
    while todo != {}
      invariant todo <= m.vertices.Keys
      invariant forall k: HistoryKey :: k in targets ==> k.stateName !in todo
      invariant forall s, skip :: HasState(m, s) && s !in todo && skip in skips ==>
          Cached(m, targets, HistoryKey(s, skip))
      decreases |todo|
    {
      var s :| s in todo;
      todo := todo - {s};
      if IsState(m.vertices[s].kind) {
        ghost var before := targets;
        targets := CacheState(m, byOwner, skips, s, targets);
        forall x, skip | HasState(m, x) && x !in todo && skip in skips ensures Cached(m, targets, HistoryKey(x, skip)) {
          if x != s {
            SameEntryCached(m, before, targets, HistoryKey(x, skip));
          }
        }
        assert forall k: HistoryKey :: k.stateName != s ==> SameEntry(before, targets, k);
      }
    }
  }

  // ----- everything -----

  ghost predicate FinalizedFor(m: Model, f: Finalized) {
    && (forall n :: n in m.transitions ==>
          n in f.transitionPaths && CompiledRoutes(m, m.transitions[n], f.transitionPaths[n]))
    && HistoryCaches(m, f.historyPaths, f.historyTargets)
    && (forall q :: q in m.vertices ==> q in f.transitionMap && q in f.deferredMap
                                        && RowsFor(m, q, f.transitionMap[q], f.deferredMap[q]))
  }

  method FinalizeTransitionPaths(m: Model) returns (routes: map<Path, map<Path, Route>>)
    requires Structured(m)
    ensures forall n :: n in m.transitions ==> n in routes && CompiledRoutes(m, m.transitions[n], routes[n])
  {
    routes := map[];
    var todo := m.transitions.Keys;
    while todo != {}
      invariant todo <= m.transitions.Keys
      invariant forall n :: n in m.transitions && n !in todo ==>
          n in routes && CompiledRoutes(m, m.transitions[n], routes[n])
      decreases |todo|
    {
      var n :| n in todo;
      todo := todo - {n};
      var forTransition := FinalizeTransitionPathsFor(m, m.transitions[n]);
      routes := routes[n := forTransition];
    }
  }

  /** Finalizing a well-formed model yields indexes that agree with every specification. */
  method FinalizeModel(m: Model) returns (f: Finalized)
    requires Structured(m)
    ensures FinalizedFor(m, f)
  {
    var routes := FinalizeTransitionPaths(m);
    var paths, targets := BuildHistoryCaches(m);
    var transitionMap, deferredMap := map[], map[];
    var todo := m.vertices.Keys;
    while todo != {}
      invariant todo <= m.vertices.Keys
      invariant forall q :: q in m.vertices && q !in todo ==>
                  q in transitionMap && q in deferredMap && RowsFor(m, q, transitionMap[q], deferredMap[q])
      decreases |todo|
    {
      var q :| q in todo;
      todo := todo - {q};
      var row, deferred := BuildRows(m, routes, q);
      transitionMap, deferredMap := transitionMap[q := row], deferredMap[q := deferred];
    }
    f := Finalized(routes, paths, targets, transitionMap, deferredMap);
  }
}
