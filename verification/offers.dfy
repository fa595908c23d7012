/** Which transitions an event can take from an element and which state defers it, said of names,
    sources and lists of the model alone, without the rows and routes that compute it. */
module Offers {
  import opened Options
  import opened Paths
  import opened Models
  import opened PathCompiler
  import opened DispatchTables
  import opened Finalizer

  /** `d` is a state that defers the event. */
  predicate Puts(m: Model, d: Path, e: string) {
    d in m.vertices && !IsHistory(m.vertices[d].kind) && !m.vertices[d].kind.Initial? && !m.vertices[d].kind.Choice?
    && e in m.vertices[d].deferred
  }

  /** No state strictly below `u` on the way down to `q` defers the event. */
  predicate ClearBelow(m: Model, u: Path, q: Path, e: string) {
    forall n :: |u| < n <= |q| ==> !Puts(m, q[..n], e)
  }

  /** `t` is listed by its source, which is at or above `q` and no initial vertex; it has the event
      among its triggers, and no state on the way out to the source defers the event. */
  predicate Offered(m: Model, q: Path, t: Transition, e: string) {
    && t.source in m.vertices && !m.vertices[t.source].kind.Initial? && AtOrAbove(t.source, q)
    && t.name in m.vertices[t.source].transitions && t.name in m.transitions && m.transitions[t.name] == t
    && e in t.events && ClearBelow(m, t.source, q, e)
  }

  /** `d` is the innermost state at or above `q` that defers the event. */
  predicate Innermost(m: Model, q: Path, e: string, d: Path) {
    AtOrAbove(d, q) && Puts(m, d, e) && ClearBelow(m, d, q, e)
  }

  /** The transition was declared in `d` or below it, or starts below it; at the top level one that
      starts at `d` itself will do. */
  predicate Within(m: Model, t: Transition, d: Path) {
    AtOrAbove(d, Dir(t.name)) || IsAncestor(d, t.source) || (t.source == d && Dir(d) == m.root)
  }

  lemma PutsIsDefers(m: Model, d: Path, e: string)
    ensures Puts(m, d, e) == Defers(m, d, e)
  {
  }

  lemma WithinIsHandles(m: Model, t: Transition, d: Path)
    ensures Within(m, t, d) == HandlesAtOrBelow(t, d, m.root)
  {
  }

  // ----- rows -----

  lemma {:induction false} UsableMembers(m: Model, q: Path, names: seq<Path>, t: Transition)
    ensures t in Usable(m, q, names) <==>
            exists n :: n in names && n in m.transitions && m.transitions[n] == t && Reaches(m, t, q)
    decreases names
  {
    if names != [] {
      UsableMembers(m, q, names[1..], t);
    }
  }

  /** The transitions of a vertex at or above `q` that can fire from `q` are those it lists,
      unless it is an initial vertex. */
  lemma UsableHere(m: Model, q: Path, u: Path, t: Transition)
    requires Structured(m) && q in m.vertices && AtOrAbove(u, q)
    ensures t in UsableAt(m, q, u) <==>
            && u in m.vertices && !m.vertices[u].kind.Initial? && t.source == u
            && t.name in m.vertices[u].transitions && t.name in m.transitions && m.transitions[t.name] == t
  {
    hide Nested, ValidTransition;
    if u in m.vertices {
      UsableMembers(m, q, m.vertices[u].transitions, t);
      assert ValidVertex(m, u);
      UnderRoot(m, q);
    }
  }

  lemma UnderRoot(m: Model, q: Path)
    requires Structured(m) && q in m.vertices
    ensures |m.root| == 1 && AtOrAbove(m.root, q) && q != [] && m.root in m.vertices
  {
    assert Owned(m, q);
  }

  lemma {:induction false} RowFrom(m: Model, q: Path, v: Path, e: string, t: Transition)
    requires Structured(m) && q in m.vertices && AtOrAbove(v, q) && AtOrAbove(m.root, v)
    ensures t in Row(m, q, v, e) <==>
            && AtOrAbove(t.source, v) && AtOrAbove(m.root, t.source) && t in UsableAt(m, q, t.source) && e in t.events
            && ClearBelow(m, t.source, v, e)
    decreases |v|
  {
    hide Structured, UsableAt, Puts;
    UnderRoot(m, q);
    UsableHere(m, q, v, t);
    TriggeredMembers(UsableAt(m, q, v), e, t);
    PutsIsDefers(m, v, e);
    assert v[..|v|] == v;
    if !Defers(m, v, e) && !Outermost(m, v) {
      RowFrom(m, q, Dir(v), e, t);
      assert forall n :: 0 <= n < |v| ==> Dir(v)[..n] == v[..n];
      if AtOrAbove(t.source, v) && t.source != v {
        UpOne(t.source, v);
      }
    } else if AtOrAbove(t.source, v) && AtOrAbove(m.root, t.source) && t.source != v {
      UpOne(t.source, v);
    }
  }

  /** The row of an element holds exactly the transitions offered there. */
  lemma RowHoldsOffered(m: Model, q: Path, e: string, t: Transition)
    requires Structured(m) && q in m.vertices
    ensures t in Row(m, q, q, e) <==> Offered(m, q, t, e)
  {
    hide Structured, Puts, Row, UsableAt, Nested;
    UnderRoot(m, q);
    RowFrom(m, q, q, e, t);
    if AtOrAbove(t.source, q) {
      UsableHere(m, q, t.source, t);
      if t.source in m.vertices {
        UnderRoot(m, t.source);
      }
    }
  }

  /** Looking an event up at an element gives exactly the transitions offered there, those inherited
      from enclosing states included. */
  lemma IndexHoldsOffered(m: Model, index: Finalized, q: Path, e: string, t: Transition)
    requires Structured(m) && FinalizedFor(m, index) && q in m.vertices
    ensures t in Lookup(index.transitionMap[q], e) <==> Offered(m, q, t, e)
  {
    RowHoldsOffered(m, q, e, t);
    assert RowsFor(m, q, index.transitionMap[q], index.deferredMap[q]);
  }

  // ----- who defers -----

  lemma InnermostIsFirst(m: Model, q: Path, e: string, d: Path)
    requires Structured(m) && q in m.vertices
    ensures InnermostDeferrer(m, q, e) == Some(d) <==> Innermost(m, q, e, d)
  {
    hide Structured, Puts, Defers;
    UnderRoot(m, q);
    DeferrerFrom(m, q, e);
    if Innermost(m, q, e, d) {
      PutsIsVertex(m, d, e);
      UnderRoot(m, d);
      assert d == q[..|d|];
    }
  }

  lemma PutsIsVertex(m: Model, d: Path, e: string)
    requires Puts(m, d, e)
    ensures d in m.vertices
  {
  }

  lemma {:induction false} DeferrerFrom(m: Model, v: Path, e: string)
    requires |m.root| == 1 && AtOrAbove(m.root, v)
    ensures var d := InnermostDeferrer(m, v, e);
            && (d.Some? ==> Innermost(m, v, e, d.value))
            && (d.None? ==> forall n :: |m.root| <= n <= |v| ==> !Puts(m, v[..n], e))
    decreases |v|
  {
    hide Puts, Defers;
    PutsIsDefers(m, v, e);
    assert v[..|v|] == v;
    if !Defers(m, v, e) && !Outermost(m, v) {
      DeferrerFrom(m, Dir(v), e);
      assert forall n :: 0 <= n < |v| ==> Dir(v)[..n] == v[..n];
    }
  }

  /** A state defers the event at an element exactly when it is the innermost one there to put it
      off, and every unguarded transition offered for it is declared and starts outside that state. */
  lemma OwnerExactly(m: Model, q: Path, e: string, d: Path)
    requires Structured(m) && q in m.vertices
    ensures TableOwner(m, q, q, e) == Some(d) <==>
            Innermost(m, q, e, d) && forall t :: Offered(m, q, t, e) && t.guard.None? ==> !Within(m, t, d)
  {
    hide Structured, Innermost, Offered, Within, Row;
    InnermostIsFirst(m, q, e, d);
    TableOwnerFrom(m, q, q, e);
    forall t
      ensures t in Row(m, q, q, e) <==> Offered(m, q, t, e)
      ensures Within(m, t, d) == HandlesAtOrBelow(t, d, m.root)
    {
      RowHoldsOffered(m, q, e, t);
      WithinIsHandles(m, t, d);
    }
  }

  /** The deferral index of an element says so. */
  lemma IndexNamesOwner(m: Model, index: Finalized, q: Path, e: string, d: Path)
    requires Structured(m) && FinalizedFor(m, index) && q in m.vertices
    ensures LookupOwner(index.deferredMap[q], e) == Some(d) <==>
            Innermost(m, q, e, d) && forall t :: Offered(m, q, t, e) && t.guard.None? ==> !Within(m, t, d)
  {
    OwnerExactly(m, q, e, d);
    assert RowsFor(m, q, index.transitionMap[q], index.deferredMap[q]);
  }

  // ----- which transition is taken -----

  /** Offered, enabled, and not ruled out by the state that defers the event. */
  predicate Stands(m: Model, q: Path, t: Transition, e: string, owner: Option<Path>, enabled: Valuation) {
    Offered(m, q, t, e) && enabled(t) && (owner.Some? ==> Within(m, t, owner.value))
  }

  lemma StandsIsEligible(m: Model, q: Path, u: Path, t: Transition, e: string, owner: Option<Path>, enabled: Valuation)
    requires Structured(m) && q in m.vertices
    ensures Visited(m, q, u, e) && t in UsableAt(m, q, u) && Eligible(m, t, e, owner, enabled) <==>
            t.source == u && Stands(m, q, t, e, owner, enabled)
  {
    hide Structured, Puts, UsableAt, HandlesAtOrBelow, Within, Defers;
    UnderRoot(m, q);
    forall n
      ensures 0 <= n <= |q| ==> Puts(m, q[..n], e) == Defers(m, q[..n], e)
    {
      if 0 <= n <= |q| {
        PutsIsDefers(m, q[..n], e);
      }
    }
    if owner.Some? {
      WithinIsHandles(m, t, owner.value);
    }
    if AtOrAbove(u, q) {
      UsableHere(m, q, u, t);
      if u in m.vertices {
        UnderRoot(m, u);
      }
    }
  }

  /** A search finds something exactly when some transition stands, and what it finds stands at the
      innermost source where one does. */
  lemma SearchFindsStanding(m: Model, q: Path, e: string, owner: Option<Path>, enabled: Valuation)
    requires Structured(m) && q in m.vertices
    ensures var found := Search(m, q, q, e, owner, enabled);
            && (found.None? <==> forall t :: !Stands(m, q, t, e, owner, enabled))
            && (found.Some? ==>
                  && Stands(m, q, found.value, e, owner, enabled)
                  && forall t :: Stands(m, q, t, e, owner, enabled) ==> |t.source| <= |found.value.source|)
  {
    hide Structured, Stands, UsableAt, Eligible, Search, Nested, Visited;
    UnderRoot(m, q);
    InnermostEligibleWins(m, q, q, e, owner, enabled);
    var found := Search(m, q, q, e, owner, enabled);
    forall t: Transition
      ensures Visited(m, q, t.source, e) && t in UsableAt(m, q, t.source) && Eligible(m, t, e, owner, enabled) <==>
              Stands(m, q, t, e, owner, enabled)
    {
      StandsIsEligible(m, q, t.source, t, e, owner, enabled);
    }
    if found.Some? {
      var u :| && Visited(m, q, u, e)
               && found == FirstEligible(m, UsableAt(m, q, u), e, owner, enabled)
               && forall n, t :: |u| < n <= |q| && t in UsableAt(m, q, q[..n]) ==> !Eligible(m, t, e, owner, enabled);
      FirstEligibleFacts(m, UsableAt(m, q, u), e, owner, enabled);
      StandsIsEligible(m, q, u, found.value, e, owner, enabled);
      forall t | Stands(m, q, t, e, owner, enabled)
        ensures |t.source| <= |u|
      {
        StandingSource(m, q, t, e, owner, enabled);
        StandsIsEligible(m, q, t.source, t, e, owner, enabled);
        assert t in UsableAt(m, q, q[..|t.source|]) && Eligible(m, t, e, owner, enabled);
      }
    }
  }

  lemma StandingSource(m: Model, q: Path, t: Transition, e: string, owner: Option<Path>, enabled: Valuation)
    requires Stands(m, q, t, e, owner, enabled)
    ensures t.source == q[..|t.source|] && |t.source| <= |q|
  {
  }

  /** The position in a list at which the search stops. */
  ghost predicate StopsAt(m: Model, q: Path, names: seq<Path>, e: string, owner: Option<Path>, enabled: Valuation,
                          t: Transition, i: int)
  {
    && 0 <= i < |names| && names[i] in m.transitions && m.transitions[names[i]] == t
    && forall j :: 0 <= j < i && names[j] in m.transitions && Reaches(m, m.transitions[names[j]], q) ==>
         !Eligible(m, m.transitions[names[j]], e, owner, enabled)
  }

  lemma {:induction false} FirstByPosition(m: Model, q: Path, names: seq<Path>, e: string, owner: Option<Path>,
          enabled: Valuation)
    ensures var found := FirstEligible(m, Usable(m, q, names), e, owner, enabled);
            found.Some? ==> exists i :: StopsAt(m, q, names, e, owner, enabled, found.value, i)
    decreases names
  {
    hide Eligible, Reaches;
    if names != [] {
      var rest := names[1..];
      FirstByPosition(m, q, rest, e, owner, enabled);
      var found := FirstEligible(m, Usable(m, q, names), e, owner, enabled);
      var live := names[0] in m.transitions && Reaches(m, m.transitions[names[0]], q);
      if live {
        assert Usable(m, q, names)[0] == m.transitions[names[0]] && Usable(m, q, names)[1..] == Usable(m, q, rest);
      }
      if live && Eligible(m, m.transitions[names[0]], e, owner, enabled) {
        assert StopsAt(m, q, names, e, owner, enabled, found.value, 0);
      } else if found.Some? {
        var i :| StopsAt(m, q, rest, e, owner, enabled, found.value, i);
        assert names[i + 1] == rest[i];
        assert forall j :: 0 < j < |names| ==> names[j] == rest[j - 1];
        assert StopsAt(m, q, names, e, owner, enabled, found.value, i + 1);
      }
    }
  }

  /** The source of `t` lists it, and nothing it lists before that stands. */
  ghost predicate ListedAt(m: Model, q: Path, t: Transition, e: string, owner: Option<Path>, enabled: Valuation, i: int)
    requires t.source in m.vertices
  {
    var names := m.vertices[t.source].transitions;
    && 0 <= i < |names| && names[i] == t.name
    && forall j :: 0 <= j < i && names[j] in m.transitions ==>
         !Stands(m, q, m.transitions[names[j]], e, owner, enabled)
  }

  /** Of the transitions that stand, this one is listed first by the innermost source. */
  ghost predicate Wins(m: Model, q: Path, t: Transition, e: string, owner: Option<Path>, enabled: Valuation) {
    && Stands(m, q, t, e, owner, enabled) && t.source in m.vertices
    && (exists i :: ListedAt(m, q, t, e, owner, enabled, i))
    && forall u :: Stands(m, q, u, e, owner, enabled) ==> |u.source| <= |t.source|
  }

  lemma StopIsListed(m: Model, q: Path, t: Transition, e: string, owner: Option<Path>, enabled: Valuation, i: int)
    requires Structured(m) && q in m.vertices && Stands(m, q, t, e, owner, enabled) && t.source in m.vertices
    requires StopsAt(m, q, m.vertices[t.source].transitions, e, owner, enabled, t, i)
    ensures ListedAt(m, q, t, e, owner, enabled, i)
  {
    hide Stands, UsableAt, Eligible, Nested, Visited, Reaches;
    var names := m.vertices[t.source].transitions;
    assert ValidVertex(m, t.source);
    forall j | 0 <= j < i && names[j] in m.transitions
      ensures !Stands(m, q, m.transitions[names[j]], e, owner, enabled)
    {
      var u := m.transitions[names[j]];
      assert u.source == t.source;
      StandsIsEligible(m, q, t.source, u, e, owner, enabled);
      UsableMembers(m, q, names, u);
      assert t.source in m.vertices ==> UsableAt(m, q, t.source) == Usable(m, q, names) by {
        UsableAtUnfolds(m, q, t.source);
      }
    }
  }

  lemma UsableAtUnfolds(m: Model, q: Path, u: Path)
    requires u in m.vertices
    ensures UsableAt(m, q, u) == Usable(m, q, m.vertices[u].transitions)
  {
  }

  lemma WinnersAgree(m: Model, q: Path, t: Transition, u: Transition, e: string, owner: Option<Path>,
          enabled: Valuation)
    requires Wins(m, q, t, e, owner, enabled) && Wins(m, q, u, e, owner, enabled)
    ensures t == u
  {
    StandingSource(m, q, t, e, owner, enabled);
    StandingSource(m, q, u, e, owner, enabled);
    assert t.source == u.source;
    var i :| ListedAt(m, q, t, e, owner, enabled, i);
    var j :| ListedAt(m, q, u, e, owner, enabled, j);
    assert m.transitions[t.name] == t && m.transitions[u.name] == u;
    hide Stands;
    assert i == j;
  }

  /** A search finds exactly the winner. */
  lemma SearchIsWinner(m: Model, q: Path, e: string, owner: Option<Path>, enabled: Valuation, t: Transition)
    requires Structured(m) && q in m.vertices
    ensures Search(m, q, q, e, owner, enabled) == Some(t) <==> Wins(m, q, t, e, owner, enabled)
  {
    hide Structured, Stands, UsableAt, Eligible, Search, Visited, ListedAt, StopsAt;
    SearchFindsStanding(m, q, e, owner, enabled);
    var found := Search(m, q, q, e, owner, enabled);
    if found.Some? {
      FoundWins(m, q, e, owner, enabled);
      if Wins(m, q, t, e, owner, enabled) {
        WinnersAgree(m, q, t, found.value, e, owner, enabled);
      }
    }
  }

  lemma FoundWins(m: Model, q: Path, e: string, owner: Option<Path>, enabled: Valuation)
    requires Structured(m) && q in m.vertices && Search(m, q, q, e, owner, enabled).Some?
    ensures Wins(m, q, Search(m, q, q, e, owner, enabled).value, e, owner, enabled)
  {
    hide Structured, Stands, UsableAt, Eligible, Search, Visited, ListedAt, StopsAt;
    UnderRoot(m, q);
    SearchFindsStanding(m, q, e, owner, enabled);
    InnermostEligibleWins(m, q, q, e, owner, enabled);
    var t := Search(m, q, q, e, owner, enabled).value;
    var u :| && Visited(m, q, u, e)
             && Some(t) == FirstEligible(m, UsableAt(m, q, u), e, owner, enabled)
             && forall n, x :: |u| < n <= |q| && x in UsableAt(m, q, q[..n]) ==> !Eligible(m, x, e, owner, enabled);
    FirstEligibleFacts(m, UsableAt(m, q, u), e, owner, enabled);
    StandsIsEligible(m, q, u, t, e, owner, enabled);
    StandingIsVertex(m, q, t, e, owner, enabled);
    UsableAtUnfolds(m, q, u);
    FirstByPosition(m, q, m.vertices[u].transitions, e, owner, enabled);
    var i :| StopsAt(m, q, m.vertices[u].transitions, e, owner, enabled, t, i);
    StopIsListed(m, q, t, e, owner, enabled, i);
  }

  lemma StandingIsVertex(m: Model, q: Path, t: Transition, e: string, owner: Option<Path>, enabled: Valuation)
    requires Stands(m, q, t, e, owner, enabled)
    ensures t.source in m.vertices
  {
  }

  // ----- decisions -----

  /** What handling an event must come to: the winner for the event, else the winner for the
      any-event, else deferral by the state that defers it, else nothing. */
  lemma DecisionExactly(m: Model, q: Path, e: string, enabled: Valuation)
    requires Structured(m) && q in m.vertices
    ensures var owner, d := TableOwner(m, q, q, e), WalkDecision(m, q, e, enabled);
            && (forall t :: d == Take(t) <==>
                  || Wins(m, q, t, e, owner, enabled)
                  || (Wins(m, q, t, ANY_EVENT, owner, enabled) && forall u :: !Stands(m, q, u, e, owner, enabled)))
            && (forall o :: d == Defer(o) <==>
                  && owner == Some(o)
                  && forall u :: !Stands(m, q, u, e, owner, enabled) && !Stands(m, q, u, ANY_EVENT, owner, enabled))
  {
    hide Structured, Stands, Wins, Search, TableOwner;
    DeferOwnerIsInnermost(m, q, e);
    var owner := TableOwner(m, q, q, e);
    SearchFindsStanding(m, q, e, owner, enabled);
    SearchFindsStanding(m, q, ANY_EVENT, owner, enabled);
    forall t
      ensures Search(m, q, q, e, owner, enabled) == Some(t) <==> Wins(m, q, t, e, owner, enabled)
      ensures Search(m, q, q, ANY_EVENT, owner, enabled) == Some(t) <==> Wins(m, q, t, ANY_EVENT, owner, enabled)
    {
      SearchIsWinner(m, q, e, owner, enabled, t);
      SearchIsWinner(m, q, ANY_EVENT, owner, enabled, t);
    }
  }

  /** An enabled transition that is declared in or below the innermost state deferring its event, or
      starts below it, or at the top level at it, takes precedence over the deferral; without a guard
      it leaves nobody to defer the event. */
  lemma DeclaredInsideWins(m: Model, q: Path, e: string, d: Path, t: Transition, enabled: Valuation)
    requires Structured(m) && q in m.vertices && Innermost(m, q, e, d)
    requires Offered(m, q, t, e) && enabled(t)
    requires AtOrAbove(d, Dir(t.name)) || IsAncestor(d, t.source) || (t.source == d && Dir(d) == m.root)
    ensures WalkDecision(m, q, e, enabled).Take?
    ensures t.guard.None? ==> TableOwner(m, q, q, e).None?
  {
    hide Structured, Innermost, Offered, TableOwner, WalkDecision;
    var owner := TableOwner(m, q, q, e);
    if owner.Some? {
      OwnerExactly(m, q, e, owner.value);
      InnermostIsFirst(m, q, e, d);
      InnermostIsFirst(m, q, e, owner.value);
    }
    assert Stands(m, q, t, e, owner, enabled);
    TakesWhenStanding(m, q, e, t, enabled);
  }

  lemma TakesWhenStanding(m: Model, q: Path, e: string, t: Transition, enabled: Valuation)
    requires Structured(m) && q in m.vertices && Stands(m, q, t, e, TableOwner(m, q, q, e), enabled)
    ensures WalkDecision(m, q, e, enabled).Take?
  {
    hide Structured, Stands, Search, TableOwner;
    DeferOwnerIsInnermost(m, q, e);
    SearchFindsStanding(m, q, e, TableOwner(m, q, q, e), enabled);
  }

  /** While a state defers the event, a transition that is declared outside it and does not start
      below it is never taken, but for one that starts at it at the top level. */
  lemma OutsideNeverTaken(m: Model, q: Path, e: string, d: Path, t: Transition, enabled: Valuation)
    requires Structured(m) && q in m.vertices && TableOwner(m, q, q, e) == Some(d)
    requires !AtOrAbove(d, Dir(t.name)) && !IsAncestor(d, t.source) && !(t.source == d && Dir(d) == m.root)
    ensures WalkDecision(m, q, e, enabled) != Take(t)
  {
    hide Structured, TableOwner, WalkDecision, Offered;
    DecisionExactly(m, q, e, enabled);
    assert !Stands(m, q, t, e, Some(d), enabled) && !Stands(m, q, t, ANY_EVENT, Some(d), enabled);
  }
}
