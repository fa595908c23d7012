/** Filling the dispatch tables, loop by loop, as the finalizer does. */
module TableBuilder {
  import opened Options
  import opened Paths
  import opened Models
  import opened PathCompiler
  import opened DispatchTables

  /** Stable insertion, deepest source first. */
  function InsertByDepth(t: Transition, ts: seq<Transition>): seq<Transition> {
    if ts == [] || |t.source| >= |ts[0].source| then [t] + ts else [ts[0]] + InsertByDepth(t, ts[1..])
  }

  function StableSort(ts: seq<Transition>): seq<Transition> {
    if ts == [] then [] else InsertByDepth(ts[0], StableSort(ts[1..]))
  }

  /** The transitions listed at one vertex share their source, so sorting them by the depth
      of the source leaves the declaration order alone. */
  lemma {:induction false} SortKeepsOrder(ts: seq<Transition>, source: Path)
    requires forall t :: t in ts ==> t.source == source
    ensures StableSort(ts) == ts
    decreases ts
  {
    if ts != [] {
      SortKeepsOrder(ts[1..], source);
    }
  }

  lemma {:induction false} UsableShareSource(m: Model, q: Path, v: Path, names: seq<Path>)
    requires forall n :: n in names && n in m.transitions ==> m.transitions[n].source == v
    ensures forall t :: t in Usable(m, q, names) ==> t.source == v
    decreases names
  {
    if names != [] {
      UsableShareSource(m, q, v, names[1..]);
    }
  }

  lemma {:induction false} UsableSnoc(m: Model, q: Path, names: seq<Path>, n: Path)
    ensures Usable(m, q, names + [n]) ==
            Usable(m, q, names)
            + if n in m.transitions && Reaches(m, m.transitions[n], q) then [m.transitions[n]] else []
    decreases names
  {
    if names != [] {
      assert (names + [n])[1..] == names[1..] + [n];
      UsableSnoc(m, q, names[1..], n);
    }
  }

  lemma {:induction false} TriggeredSnoc(ts: seq<Transition>, t: Transition, e: string)
    ensures Triggered(ts + [t], e) == Triggered(ts, e) + Copies(t, t.events, e)
    decreases ts
  {
    if ts == [] {
      assert Triggered([t], e) == Copies(t, t.events, e) + Triggered([], e);
    } else {
      assert (ts + [t])[1..] == ts[1..] + [t];
      TriggeredSnoc(ts[1..], t, e);
    }
  }

  lemma {:induction false} CopiesSnoc(t: Transition, events: seq<string>, x: string, e: string)
    ensures Copies(t, events + [x], e) == Copies(t, events, e) + if x == e then [t] else []
    decreases events
  {
    if events != [] {
      assert (events + [x])[1..] == events[1..] + [x];
      CopiesSnoc(t, events[1..], x, e);
    }
  }

  /** The transitions of `v` that have a compiled route from `q`. */
  method CollectUsable(m: Model, routes: map<Path, map<Path, Route>>, q: Path, v: Path) returns (ts: seq<Transition>)
    requires v in m.vertices
    requires forall n :: n in m.transitions ==> n in routes && CompiledRoutes(m, m.transitions[n], routes[n])
    ensures ts == UsableAt(m, q, v)
  {
    ts := [];
    var names := m.vertices[v].transitions;
    for i := 0 to |names|
      invariant ts == Usable(m, q, names[..i])
    {
      UsableSnoc(m, q, names[..i], names[i]);
      assert names[..i + 1] == names[..i] + [names[i]];
      if names[i] in m.transitions {
        if q in routes[names[i]] {
          ts := ts + [m.transitions[names[i]]];
        }
      }
    }
    assert names[..|names|] == names;
  }

  ghost predicate Added(row: TransitionRow, after: TransitionRow, shadowed: set<string>, t: Transition,
          events: seq<string>)
  {
    forall e :: Lookup(after, e) == Lookup(row, e) + if e in shadowed then [] else Copies(t, events, e)
  }

  lemma AddedAt(row: TransitionRow, after: TransitionRow, shadowed: set<string>, t: Transition, events: seq<string>,
          x: string, e: string)
    requires Lookup(after, e) == Lookup(row, e) + if e in shadowed then [] else Copies(t, events, e)
    ensures var next := if x in shadowed then after else after[x := Lookup(after, x) + [t]];
            Lookup(next, e) == Lookup(row, e) + if e in shadowed then [] else Copies(t, events + [x], e)
  {
    hide Copies;
    CopiesSnoc(t, events, x, e);
  }

  lemma AddedOne(row: TransitionRow, after: TransitionRow, shadowed: set<string>, t: Transition, events: seq<string>,
          x: string)
    requires Added(row, after, shadowed, t, events)
    ensures Added(row, if x in shadowed then after else after[x := Lookup(after, x) + [t]], shadowed, t, events + [x])
  {
    hide Copies, Lookup;
    forall e {
      AddedAt(row, after, shadowed, t, events, x, e);
    }
  }

  method AddTransition(row: TransitionRow, shadowed: set<string>, t: Transition) returns (after: TransitionRow)
    ensures Added(row, after, shadowed, t, t.events)
  {
    after := row;
    for i := 0 to |t.events|
      invariant Added(row, after, shadowed, t, t.events[..i])
    {
      var name := t.events[i];
      assert t.events[..i + 1] == t.events[..i] + [name];
      AddedOne(row, after, shadowed, t, t.events[..i], name);
      if name !in shadowed {
        after := after[name := Lookup(after, name) + [t]];
      }
    }
    assert t.events[..|t.events|] == t.events;
  }

  method AddTransitions(row: TransitionRow, shadowed: set<string>, ts: seq<Transition>) returns (after: TransitionRow)
    ensures forall e :: Lookup(after, e) == Lookup(row, e) + if e in shadowed then [] else Triggered(ts, e)
  {
    after := row;
    for i := 0 to |ts|
      invariant forall e :: Lookup(after, e) == Lookup(row, e) + if e in shadowed then [] else Triggered(ts[..i], e)
    {
      assert ts[..i + 1] == ts[..i] + [ts[i]];
      forall e ensures Triggered(ts[..i + 1], e) == Triggered(ts[..i], e) + Copies(ts[i], ts[i].events, e) {
        TriggeredSnoc(ts[..i], ts[i], e);
      }
      after := AddTransition(after, shadowed, ts[i]);
    }
    assert ts[..|ts|] == ts;
  }

  /** The chain from the root to `q`, outermost first. */
  method PathTo(m: Model, q: Path) returns (pathToState: seq<Path>)
    requires Nested(m) && q in m.vertices
    ensures |pathToState| == |q|
    ensures forall i :: 0 <= i < |q| ==> pathToState[i] == q[..i + 1]
  {
    pathToState := [];
    assert Owned(m, q);
    var current := q;
    while current != m.root
      invariant AtOrAbove(m.root, current) && AtOrAbove(current, q)
      invariant |pathToState| == |q| - |current|
      invariant forall i :: 0 <= i < |pathToState| ==> pathToState[i] == q[..|current| + i + 1]
      decreases |current|
    {
      pathToState := [current] + pathToState;
      current := Dir(current);
    }
    pathToState := [current] + pathToState;
  }

  /** `rest` is what the walk still has to visit: `e`'s row from `v` outward. */
  ghost function RestOfRow(m: Model, q: Path, n: nat, e: string): seq<Transition>
    requires n <= |q|
  {
    if n == 0 then [] else Row(m, q, q[..n], e)
  }

  method BuildTransitionRow(m: Model, routes: map<Path, map<Path, Route>>, q: Path, pathToState: seq<Path>)
    returns (row: TransitionRow)
    requires Structured(m) && q in m.vertices
    requires forall n :: n in m.transitions ==> n in routes && CompiledRoutes(m, m.transitions[n], routes[n])
    requires |pathToState| == |q| && forall i :: 0 <= i < |q| ==> pathToState[i] == q[..i + 1]
    ensures forall e :: Lookup(row, e) == Row(m, q, q, e)
  {
    row := map[];
    var shadowed: set<string> := {};
    assert q[..|q|] == q && Owned(m, q);
    var i := |pathToState|;
    while i > 0
      invariant 0 <= i <= |q|
      invariant forall e :: Row(m, q, q, e) == Lookup(row, e) + if e in shadowed then [] else RestOfRow(m, q, i, e)
    {
      var v := pathToState[i - 1];
      assert Dir(v) == q[..i - 1];
      PrefixIsPath(m, q, i);
      var ts := CollectUsable(m, routes, q, v);
      assert ValidVertex(m, v);
      UsableShareSource(m, q, v, m.vertices[v].transitions);
      SortKeepsOrder(ts, v);
      ts := StableSort(ts);
      ghost var before := row;
      row := AddTransitions(row, shadowed, ts);
      ghost var was := shadowed;
      if IsState(m.vertices[v].kind) {
        shadowed := shadowed + (set e | e in m.vertices[v].deferred);
      }
      forall e
        ensures Row(m, q, q, e) == Lookup(row, e) + if e in shadowed then [] else RestOfRow(m, q, i - 1, e)
      {
        RowAfterVertex(m, q, i, e, Lookup(before, e), Lookup(row, e), e in was, e in shadowed);
      }
      i := i - 1;
    }
  }

  lemma PrefixIsPath(m: Model, q: Path, n: nat)
    requires Nested(m) && q in m.vertices && 0 < n <= |q|
    ensures q[..n] in m.vertices
  {
    if n < |q| {
      PrefixesAreComposite(m, q, n);
    } else {
      assert q[..n] == q;
    }
  }

  lemma RowStep(m: Model, q: Path, n: nat, e: string)
    requires Nested(m) && q in m.vertices && 0 < n <= |q|
    ensures RestOfRow(m, q, n, e) == Triggered(UsableAt(m, q, q[..n]), e) +
            if Defers(m, q[..n], e) then [] else RestOfRow(m, q, n - 1, e)
  {
    assert Owned(m, q);
    assert Dir(q[..n]) == q[..n - 1];
    assert q[..n] == m.root <==> n == 1;
  }

  lemma RowAfterVertex(m: Model, q: Path, n: nat, e: string, before: seq<Transition>, after: seq<Transition>,
          was: bool, now: bool)
    requires Nested(m) && q in m.vertices && 0 < n <= |q|
    requires Row(m, q, q, e) == before + if was then [] else RestOfRow(m, q, n, e)
    requires after == before + if was then [] else Triggered(UsableAt(m, q, q[..n]), e)
    requires now <==> was || Defers(m, q[..n], e)
    ensures Row(m, q, q, e) == after + if now then [] else RestOfRow(m, q, n - 1, e)
  {
    RowStep(m, q, n, e);
  }

  /** The source's scan of one row, stopping at the first unguarded handler. */
  method FindUnguarded(m: Model, ts: seq<Transition>, owner: Path) returns (found: bool)
    ensures found == HasUnguardedHandler(m, ts, owner)
  {
    found := false;
    for i := 0 to |ts|
      invariant !found && forall t :: t in ts[..i] ==> !(t.guard.None? && HandlesAtOrBelow(t, owner, m.root))
    {
      if ts[i].guard.None? && HandlesAtOrBelow(ts[i], owner, m.root) {
        return true;
      }
      assert forall t :: t in ts[..i + 1] <==> t in ts[..i] || t == ts[i];
    }
    assert ts[..|ts|] == ts;
  }

  ghost function RestOfOwner(m: Model, q: Path, n: nat, e: string): Option<Path>
    requires n <= |q|
  {
    if n == 0 then None else TableOwner(m, q, q[..n], e)
  }

  method BuildDeferredRow(m: Model, q: Path, pathToState: seq<Path>, row: TransitionRow) returns (deferred: DeferredRow)
    requires Nested(m) && q in m.vertices
    requires forall e :: Lookup(row, e) == Row(m, q, q, e)
    requires |pathToState| == |q| && forall i :: 0 <= i < |q| ==> pathToState[i] == q[..i + 1]
    ensures forall e :: LookupOwner(deferred, e) == TableOwner(m, q, q, e)
  {
    hide Row, HasUnguardedHandler;
    deferred := map[];
    assert q[..|q|] == q && Owned(m, q);
    var i := |pathToState|;
    while i > 0
      invariant 0 <= i <= |q|
      invariant forall e ::
        TableOwner(m, q, q, e) == if e in deferred then Some(deferred[e]) else RestOfOwner(m, q, i, e)
    {
      var v := pathToState[i - 1];
      PrefixIsPath(m, q, i);
      ghost var before := deferred;
      if IsState(m.vertices[v].kind) {
        deferred := DeferAt(m, q, v, row, deferred);
      }
      forall e
        ensures TableOwner(m, q, q, e) == if e in deferred then Some(deferred[e]) else RestOfOwner(m, q, i - 1, e)
      {
        assert Dir(v) == q[..i - 1] && (v == m.root <==> i == 1);
        assert TableOwner(m, q, q, e) == if e in before then Some(before[e]) else RestOfOwner(m, q, i, e);
      }
      i := i - 1;
    }
  }

  method DeferAt(m: Model, q: Path, v: Path, row: TransitionRow, deferred: DeferredRow) returns (after: DeferredRow)
    requires v in m.vertices
    requires forall e :: Lookup(row, e) == Row(m, q, q, e)
    ensures forall e :: LookupOwner(after, e) ==
                        if e in deferred then Some(deferred[e])
                        else if e in m.vertices[v].deferred && !HasUnguardedHandler(m, Row(m, q, q, e), v) then Some(v)
                        else None
  {
    after := deferred;
    var events := m.vertices[v].deferred;
    for i := 0 to |events|
      invariant forall e :: LookupOwner(after, e) ==
                            if e in deferred then Some(deferred[e])
                            else if e in events[..i] && !HasUnguardedHandler(m, Row(m, q, q, e), v) then Some(v)
                            else None
    {
      var name := events[i];
      assert forall e :: e in events[..i + 1] <==> e in events[..i] || e == name;
      assert Lookup(row, name) == Row(m, q, q, name);
      var unguarded := FindUnguarded(m, Lookup(row, name), v);
      if !unguarded {
        if name !in after {
          after := after[name := v];
        }
      }
    }
    assert events[..|events|] == events;
  }

  method BuildRows(m: Model, routes: map<Path, map<Path, Route>>, q: Path)
    returns (row: TransitionRow, deferred: DeferredRow)
    requires Structured(m) && q in m.vertices
    requires forall n :: n in m.transitions ==> n in routes && CompiledRoutes(m, m.transitions[n], routes[n])
    ensures RowsFor(m, q, row, deferred)
  {
    var pathToState := PathTo(m, q);
    row := BuildTransitionRow(m, routes, q, pathToState);
    deferred := BuildDeferredRow(m, q, pathToState, row);
  }
}
