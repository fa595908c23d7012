/** Dispatch tables: flattening the hierarchy per current element, and the walk they stand for. */
module DispatchTables {
  import opened Options
  import opened Paths
  import opened Models
  import opened PathCompiler

  // ----- the rules both forms share -----

  predicate Defers(m: Model, p: Path, e: string) {
    HasState(m, p) && e in m.vertices[p].deferred
  }

  predicate HandlesAtOrBelow(t: Transition, owner: Path, root: Path) {
    || (t.source == owner && Dir(owner) == root)
    || IsAncestor(owner, t.source)
    || Dir(t.name) == owner
    || IsAncestor(owner, Dir(t.name))
  }

  /** The live transitions of a vertex that can fire from `q`, in declaration order. */
  function Usable(m: Model, q: Path, names: seq<Path>): seq<Transition> {
    if names == [] then []
    else if names[0] in m.transitions && Reaches(m, m.transitions[names[0]], q)
    then [m.transitions[names[0]]] + Usable(m, q, names[1..])
    else Usable(m, q, names[1..])
  }

  function UsableAt(m: Model, q: Path, v: Path): seq<Transition> {
    if v in m.vertices then Usable(m, q, m.vertices[v].transitions) else []
  }

  predicate Outermost(m: Model, v: Path) {
    v == m.root || v == []
  }

  // ----- the walk up the hierarchy -----

  datatype Decision = Take(t: Transition) | Defer(owner: Path) | Ignore

  type Valuation = Transition -> bool

  /** The innermost state at or above `v` that defers `e`. */
  function InnermostDeferrer(m: Model, v: Path, e: string): Option<Path>
    decreases |v|
  {
    if Defers(m, v, e) then Some(v)
    else if Outermost(m, v) then None
    else InnermostDeferrer(m, Dir(v), e)
  }

  /** Does some vertex from `v` up to the innermost deferring state have an unguarded
      transition for `e` that handles it at or below `owner`? */
  predicate Handled(m: Model, q: Path, v: Path, e: string, owner: Path)
    decreases |v|
  {
    || (exists t :: t in UsableAt(m, q, v) && e in t.events && t.guard.None? && HandlesAtOrBelow(t, owner, m.root))
    || (!Defers(m, v, e) && !Outermost(m, v) && Handled(m, q, Dir(v), e, owner))
  }

  /** Who defers `e` at `q`: the innermost deferring state, unless `e` is handled regardless. */
  function WalkOwner(m: Model, q: Path, e: string): Option<Path> {
    var d := InnermostDeferrer(m, q, e);
    if d.Some? && Handled(m, q, q, e, d.value) then None else d
  }

  predicate Eligible(m: Model, t: Transition, e: string, owner: Option<Path>, enabled: Valuation) {
    e in t.events && (owner.None? || HandlesAtOrBelow(t, owner.value, m.root)) && enabled(t)
  }

  function FirstEligible(m: Model, ts: seq<Transition>, e: string, owner: Option<Path>,
          enabled: Valuation): Option<Transition>
  {
    if ts == [] then None
    else if Eligible(m, ts[0], e, owner, enabled) then Some(ts[0])
    else FirstEligible(m, ts[1..], e, owner, enabled)
  }

  /** From `v` outward, vertex by vertex, not past the innermost state that defers `e`. */
  function Search(m: Model, q: Path, v: Path, e: string, owner: Option<Path>, enabled: Valuation): Option<Transition>
    decreases |v|
  {
    var here := FirstEligible(m, UsableAt(m, q, v), e, owner, enabled);
    if here.Some? then here
    else if Defers(m, v, e) || Outermost(m, v) then None
    else Search(m, q, Dir(v), e, owner, enabled)
  }

  function WalkDecision(m: Model, q: Path, e: string, enabled: Valuation): Decision {
    var owner := WalkOwner(m, q, e);
    var specific := Search(m, q, q, e, owner, enabled);
    var any := if e == ANY_EVENT then None else Search(m, q, q, ANY_EVENT, owner, enabled);
    if specific.Some? then Take(specific.value)
    else if any.Some? then Take(any.value)
    else if owner.Some? then Defer(owner.value)
    else Ignore
  }

  // ----- the tables -----

  type TransitionRow = map<string, seq<Transition>>
  type DeferredRow = map<string, Path>

  function Lookup(row: TransitionRow, e: string): seq<Transition> {
    if e in row then row[e] else []
  }

  function LookupOwner(row: DeferredRow, e: string): Option<Path> {
    if e in row then Some(row[e]) else None
  }

  /** One copy of each transition per occurrence of the event among its triggers. */
  function Copies(t: Transition, events: seq<string>, e: string): seq<Transition> {
    if events == [] then []
    else (if events[0] == e then [t] else []) + Copies(t, events[1..], e)
  }

  function Triggered(ts: seq<Transition>, e: string): seq<Transition> {
    if ts == [] then [] else Copies(ts[0], ts[0].events, e) + Triggered(ts[1..], e)
  }

  /** What the table row of `q` must hold for `e`, starting the walk at `v`. */
  function Row(m: Model, q: Path, v: Path, e: string): seq<Transition>
    decreases |v|
  {
    Triggered(UsableAt(m, q, v), e) +
    if Defers(m, v, e) || Outermost(m, v) then [] else Row(m, q, Dir(v), e)
  }

  predicate HasUnguardedHandler(m: Model, ts: seq<Transition>, owner: Path) {
    exists t :: t in ts && t.guard.None? && HandlesAtOrBelow(t, owner, m.root)
  }

  /** What the deferral row of `q` must hold for `e`: the first state from `v` outward that
      defers `e` and below which no unguarded transition handles it. */
  function TableOwner(m: Model, q: Path, v: Path, e: string): Option<Path>
    decreases |v|
  {
    if Defers(m, v, e) && !HasUnguardedHandler(m, Row(m, q, q, e), v) then Some(v)
    else if Outermost(m, v) then None
    else TableOwner(m, q, Dir(v), e)
  }

  function WithOwner(m: Model, ts: seq<Transition>, owner: Option<Path>): seq<Transition> {
    if ts == [] then []
    else if owner.Some? && !HandlesAtOrBelow(ts[0], owner.value, m.root) then WithOwner(m, ts[1..], owner)
    else [ts[0]] + WithOwner(m, ts[1..], owner)
  }

  function FirstOf(ts: seq<Transition>, enabled: Valuation): Option<Transition> {
    if ts == [] then None else if enabled(ts[0]) then Some(ts[0]) else FirstOf(ts[1..], enabled)
  }

  /** The flat form: two look-ups, each filtered by the deferral owner. */
  function TableDecision(m: Model, transitions: TransitionRow, deferred: DeferredRow, e: string,
          enabled: Valuation): Decision
  {
    var owner := LookupOwner(deferred, e);
    var specific := FirstOf(WithOwner(m, Lookup(transitions, e), owner), enabled);
    var any := if e == ANY_EVENT then None
               else FirstOf(WithOwner(m, Lookup(transitions, ANY_EVENT), owner), enabled);
    if specific.Some? then Take(specific.value)
    else if any.Some? then Take(any.value)
    else if owner.Some? then Defer(owner.value)
    else Ignore
  }

  ghost predicate RowsFor(m: Model, q: Path, transitions: TransitionRow, deferred: DeferredRow) {
    && (forall e :: Lookup(transitions, e) == Row(m, q, q, e))
    && (forall e :: LookupOwner(deferred, e) == TableOwner(m, q, q, e))
  }

  // ----- the tables stand for the walk -----

  lemma SplitRows(m: Model, a: seq<Transition>, b: seq<Transition>, owner: Option<Path>, enabled: Valuation)
    ensures WithOwner(m, a + b, owner) == WithOwner(m, a, owner) + WithOwner(m, b, owner)
    ensures FirstOf(a + b, enabled) == if FirstOf(a, enabled).Some? then FirstOf(a, enabled) else FirstOf(b, enabled)
  {
    SplitOwned(m, a, b, owner);
    SplitFirst(a, b, enabled);
  }

  lemma {:induction false} SplitOwned(m: Model, a: seq<Transition>, b: seq<Transition>, owner: Option<Path>)
    ensures WithOwner(m, a + b, owner) == WithOwner(m, a, owner) + WithOwner(m, b, owner)
    decreases a
  {
    hide HandlesAtOrBelow;
    if a == [] {
      assert a + b == b;
    } else {
      assert (a + b)[1..] == a[1..] + b;
      SplitOwned(m, a[1..], b, owner);
    }
  }

  lemma {:induction false} SplitFirst(a: seq<Transition>, b: seq<Transition>, enabled: Valuation)
    ensures FirstOf(a + b, enabled) == if FirstOf(a, enabled).Some? then FirstOf(a, enabled) else FirstOf(b, enabled)
    decreases a
  {
    if a == [] {
      assert a + b == b;
    } else {
      assert (a + b)[1..] == a[1..] + b;
      SplitFirst(a[1..], b, enabled);
    }
  }

  lemma {:induction false} FirstOfCopies(m: Model, t: Transition, events: seq<string>, e: string, owner: Option<Path>,
          enabled: Valuation)
    ensures FirstOf(WithOwner(m, Copies(t, events, e), owner), enabled) ==
            if e in events && (owner.None? || HandlesAtOrBelow(t, owner.value, m.root)) && enabled(t)
            then Some(t) else None
    decreases events
  {
    if events != [] {
      FirstOfCopies(m, t, events[1..], e, owner, enabled);
      var rest := Copies(t, events[1..], e);
      if events[0] != e {
        assert Copies(t, events, e) == rest;
      } else {
        SplitRows(m, [t], rest, owner, enabled);
        SplitRows(m, WithOwner(m, [t], owner), WithOwner(m, rest, owner), owner, enabled);
        assert WithOwner(m, [t], owner) == if owner.None? || HandlesAtOrBelow(t, owner.value, m.root) then [t] else [];
      }
    }
  }

  lemma {:induction false} FirstOfTriggered(m: Model, ts: seq<Transition>, e: string, owner: Option<Path>,
          enabled: Valuation)
    ensures FirstOf(WithOwner(m, Triggered(ts, e), owner), enabled) == FirstEligible(m, ts, e, owner, enabled)
    decreases ts
  {
    if ts != [] {
      var copies := Copies(ts[0], ts[0].events, e);
      FirstOfCopies(m, ts[0], ts[0].events, e, owner, enabled);
      FirstOfTriggered(m, ts[1..], e, owner, enabled);
      SplitRows(m, copies, Triggered(ts[1..], e), owner, enabled);
      SplitRows(m, WithOwner(m, copies, owner), WithOwner(m, Triggered(ts[1..], e), owner), owner, enabled);
    }
  }

  /** Looking a row up and filtering it finds what searching vertex by vertex finds. */
  lemma {:induction false} RowIsSearch(m: Model, q: Path, v: Path, e: string, owner: Option<Path>, enabled: Valuation)
    ensures FirstOf(WithOwner(m, Row(m, q, v, e), owner), enabled) == Search(m, q, v, e, owner, enabled)
    decreases |v|
  {
    var here := Triggered(UsableAt(m, q, v), e);
    FirstOfTriggered(m, UsableAt(m, q, v), e, owner, enabled);
    if Defers(m, v, e) || Outermost(m, v) {
      assert Row(m, q, v, e) == here;
    } else {
      RowIsSearch(m, q, Dir(v), e, owner, enabled);
      SplitRows(m, here, Row(m, q, Dir(v), e), owner, enabled);
      SplitRows(m, WithOwner(m, here, owner), WithOwner(m, Row(m, q, Dir(v), e), owner), owner, enabled);
    }
  }

  lemma {:induction false} CopiesMembers(t: Transition, events: seq<string>, e: string, x: Transition)
    ensures x in Copies(t, events, e) <==> x == t && e in events
    decreases events
  {
    if events != [] {
      CopiesMembers(t, events[1..], e, x);
    }
  }

  lemma {:induction false} TriggeredMembers(ts: seq<Transition>, e: string, x: Transition)
    ensures x in Triggered(ts, e) <==> x in ts && e in x.events
    decreases ts
  {
    if ts != [] {
      CopiesMembers(ts[0], ts[0].events, e, x);
      TriggeredMembers(ts[1..], e, x);
    }
  }

  lemma {:induction false} RowHandles(m: Model, q: Path, v: Path, e: string, owner: Path)
    ensures HasUnguardedHandler(m, Row(m, q, v, e), owner) <==> Handled(m, q, v, e, owner)
    decreases |v|
  {
    var here := UsableAt(m, q, v);
    forall t ensures t in Triggered(here, e) <==> t in here && e in t.events {
      TriggeredMembers(here, e, t);
    }
    assert HasUnguardedHandler(m, Triggered(here, e), owner) <==>
           exists t :: t in here && e in t.events && t.guard.None? && HandlesAtOrBelow(t, owner, m.root);
    if !Defers(m, v, e) && !Outermost(m, v) {
      RowHandles(m, q, Dir(v), e, owner);
      var rest := Row(m, q, Dir(v), e);
      assert forall t :: t in Triggered(here, e) + rest <==> t in Triggered(here, e) || t in rest;
    }
  }

  /** At-or-below is monotone outward. */
  lemma HandlesOutward(t: Transition, inner: Path, outer: Path, root: Path)
    requires HandlesAtOrBelow(t, inner, root) && IsAncestor(outer, inner)
    ensures HandlesAtOrBelow(t, outer, root)
  {
  }

  lemma {:induction false} NoOwnerFurtherOut(m: Model, q: Path, d: Path, v: Path, e: string)
    requires HasUnguardedHandler(m, Row(m, q, q, e), d) && IsAncestor(v, d)
    ensures TableOwner(m, q, v, e).None?
    decreases |v|
  {
    var t :| t in Row(m, q, q, e) && t.guard.None? && HandlesAtOrBelow(t, d, m.root);
    HandlesOutward(t, d, v, m.root);
    if !Outermost(m, v) {
      NoOwnerFurtherOut(m, q, d, Dir(v), e);
    }
  }

  lemma {:induction false} TableOwnerFrom(m: Model, q: Path, v: Path, e: string)
    ensures TableOwner(m, q, v, e) ==
            var d := InnermostDeferrer(m, v, e);
            if d.Some? && HasUnguardedHandler(m, Row(m, q, q, e), d.value) then None else d
    decreases |v|
  {
    if Defers(m, v, e) {
      if HasUnguardedHandler(m, Row(m, q, q, e), v) && !Outermost(m, v) {
        NoOwnerFurtherOut(m, q, v, Dir(v), e);
      }
    } else if !Outermost(m, v) {
      TableOwnerFrom(m, q, Dir(v), e);
    }
  }

  lemma {:induction false} InnermostDeferrerFacts(m: Model, v: Path, e: string)
    ensures var d := InnermostDeferrer(m, v, e);
            && (d.Some? ==> AtOrAbove(d.value, v) && Defers(m, d.value, e))
            && forall p :: AtOrAbove(m.root, p) && AtOrAbove(p, v) && Defers(m, p, e) ==>
                 d.Some? && AtOrAbove(p, d.value)
    decreases |v|
  {
    if !Defers(m, v, e) && !Outermost(m, v) {
      InnermostDeferrerFacts(m, Dir(v), e);
    }
    var d := InnermostDeferrer(m, v, e);
    forall p | AtOrAbove(m.root, p) && AtOrAbove(p, v) && Defers(m, p, e)
      ensures d.Some? && AtOrAbove(p, d.value)
    {
      if p != v && v != m.root {
        UpOne(p, v);
        assert !Outermost(m, v);
      }
    }
  }

  lemma UpOne(p: Path, v: Path)
    requires AtOrAbove(p, v) && p != v
    ensures v != [] && AtOrAbove(p, Dir(v))
  {
    assert |p| == |v| ==> p == v;
    assert |p| < |v| ==> Dir(v)[..|p|] == v[..|p|];
  }

  /** The deferral row names the innermost state that defers the event, and nobody exactly
      when no state defers it or an unguarded transition handles it at or below that state. */
  lemma DeferOwnerIsInnermost(m: Model, q: Path, e: string)
    ensures TableOwner(m, q, q, e) == WalkOwner(m, q, e)
    ensures var owner := TableOwner(m, q, q, e);
            && (owner.Some? ==>
                  && AtOrAbove(owner.value, q) && Defers(m, owner.value, e)
                  && !Handled(m, q, q, e, owner.value)
                  && forall p :: AtOrAbove(m.root, p) && AtOrAbove(p, q) && Defers(m, p, e) ==>
                       AtOrAbove(p, owner.value))
            && (owner.None? <==>
                  InnermostDeferrer(m, q, e).None? || Handled(m, q, q, e, InnermostDeferrer(m, q, e).value))
  {
    TableOwnerFrom(m, q, q, e);
    InnermostDeferrerFacts(m, q, e);
    var d := InnermostDeferrer(m, q, e);
    if d.Some? {
      RowHandles(m, q, q, e, d.value);
    }
  }

  /** Table refinement: for every element, event and guard valuation, the look-ups take,
      defer or ignore exactly what the walk up the hierarchy does. */
  lemma TablesRefineWalk(m: Model, q: Path, transitions: TransitionRow, deferred: DeferredRow, e: string,
          enabled: Valuation)
    requires RowsFor(m, q, transitions, deferred)
    ensures TableDecision(m, transitions, deferred, e, enabled) == WalkDecision(m, q, e, enabled)
  {
    DeferOwnerIsInnermost(m, q, e);
    var owner := LookupOwner(deferred, e);
    assert Lookup(transitions, e) == Row(m, q, q, e);
    assert Lookup(transitions, ANY_EVENT) == Row(m, q, q, ANY_EVENT);
    RowIsSearch(m, q, q, e, owner, enabled);
    RowIsSearch(m, q, q, ANY_EVENT, owner, enabled);
  }

  lemma {:induction false} FirstEligibleFacts(m: Model, ts: seq<Transition>, e: string, owner: Option<Path>,
          enabled: Valuation)
    ensures var found := FirstEligible(m, ts, e, owner, enabled);
            && (found.None? <==> forall t :: t in ts ==> !Eligible(m, t, e, owner, enabled))
            && (found.Some? ==> found.value in ts && Eligible(m, found.value, e, owner, enabled))
    decreases ts
  {
    if ts != [] {
      FirstEligibleFacts(m, ts[1..], e, owner, enabled);
    }
  }

  /** `u` is visited by the search that starts at `v`: nothing strictly below it defers `e`. */
  predicate Visited(m: Model, v: Path, u: Path, e: string) {
    && AtOrAbove(m.root, u) && AtOrAbove(u, v)
    && forall n :: |u| < n <= |v| ==> !Defers(m, v[..n], e)
  }

  /** The search finds a transition exactly when some visited vertex has an eligible one,
      and the one it finds belongs to the innermost such vertex. */
  lemma {:induction false} InnermostEligibleWins(m: Model, q: Path, v: Path, e: string, owner: Option<Path>,
          enabled: Valuation)
    requires |m.root| == 1 && AtOrAbove(m.root, v)
    ensures var found := Search(m, q, v, e, owner, enabled);
            && (found.None? ==> forall u, t :: Visited(m, v, u, e) && t in UsableAt(m, q, u) ==>
                 !Eligible(m, t, e, owner, enabled))
            && (found.Some? ==> exists u ::
                  && Visited(m, v, u, e)
                  && found == FirstEligible(m, UsableAt(m, q, u), e, owner, enabled)
                  && forall n, t :: |u| < n <= |v| && t in UsableAt(m, q, v[..n]) ==>
                       !Eligible(m, t, e, owner, enabled))
    decreases |v|
  {
    FirstEligibleFacts(m, UsableAt(m, q, v), e, owner, enabled);
    var here, found := FirstEligible(m, UsableAt(m, q, v), e, owner, enabled), Search(m, q, v, e, owner, enabled);
    if here.Some? {
      assert Visited(m, v, v, e);
    } else if Defers(m, v, e) || v == m.root {
      forall u | Visited(m, v, u, e) ensures u == v {
        assert v[..|v|] == v && u == v[..|u|];
      }
    } else {
      InnermostEligibleWins(m, q, Dir(v), e, owner, enabled);
      forall u ensures Visited(m, v, u, e) <==> u == v || Visited(m, Dir(v), u, e) {
        VisitedUpOne(m, v, u, e);
      }
      if found.Some? {
        var u :| && Visited(m, Dir(v), u, e)
                 && found == FirstEligible(m, UsableAt(m, q, u), e, owner, enabled)
                 && forall n, t :: |u| < n <= |Dir(v)| && t in UsableAt(m, q, Dir(v)[..n]) ==>
                      !Eligible(m, t, e, owner, enabled);
        forall n, t | |u| < n <= |v| && t in UsableAt(m, q, v[..n]) ensures !Eligible(m, t, e, owner, enabled) {
          assert v[..n] == if n == |v| then v else Dir(v)[..n];
        }
      }
    }
  }

  lemma VisitedUpOne(m: Model, v: Path, u: Path, e: string)
    requires |m.root| == 1 && AtOrAbove(m.root, v) && v != m.root && !Defers(m, v, e)
    ensures Visited(m, v, u, e) <==> u == v || Visited(m, Dir(v), u, e)
  {
    assert forall n :: 0 <= n < |v| ==> Dir(v)[..n] == v[..n];
    assert v[..|v|] == v;
    if u != v && AtOrAbove(u, v) {
      UpOne(u, v);
    }
  }
}
