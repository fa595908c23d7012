/** The checks a built model must pass before it is finalized, and what passing them gives the runtime. */
module Validation {
  import opened Options
  import opened Paths
  import opened Models

  const INITIAL_EVENT := "hsm/initial"

  /** The innermost submachine state strictly above a name. */
  function Boundary(m: Model, p: Path): Option<Path>
    decreases |p|
  {
    if Dir(p) == [] then None
    else if Dir(p) in m.vertices && m.vertices[Dir(p)].kind.Submachine? then Some(Dir(p))
    else Boundary(m, Dir(p))
  }

  predicate IsWithinBoundary(name: Path, boundary: Path) {
    name == boundary || IsAncestor(boundary, name)
  }

  predicate IsPseudostate(m: Model, p: Path) {
    p in m.vertices && !IsState(m.vertices[p].kind)
  }

  predicate IsInitial(m: Model, p: Path) {
    p in m.vertices && m.vertices[p].kind.Initial?
  }

  /** What is checked of a transition, in the order of the checks. Its source and target are
      looked up among all members, and its owner is the vertex it was declared in. */
  predicate TransitionPasses(m: Model, t: Transition) {
    && t.source in Members(m)
    && var sourceBoundary := Boundary(m, t.source);
    && var owner := Dir(t.name);
    && (sourceBoundary.Some? ==> IsWithinBoundary(owner, sourceBoundary.value))
    && (t.target.Some? ==>
          && t.target.value in Members(m)
          && var targetBoundary := Boundary(m, t.target.value);
          && !(sourceBoundary.Some? && targetBoundary != sourceBoundary
               && (targetBoundary.None? || !IsAncestor(sourceBoundary.value, targetBoundary.value)))
          && !(targetBoundary.Some? && sourceBoundary != targetBoundary
               && !IsWithinBoundary(owner, targetBoundary.value)))
    && !(owner == m.root && t.source == m.root && t.target.Some? && FINAL_EVENT !in t.events)
    && !(t.events == [] && !IsPseudostate(m, t.source))
    && !(t.target.None? && IsPseudostate(m, t.source))
    && (if IsInitial(m, t.source) then t.guard.None? && forall e :: e in t.events ==> e == INITIAL_EVENT
        else IsPseudostate(m, t.source) ==> t.events == [])
  }

  predicate TargetsNested(m: Model, owner: Path, name: Path) {
    name in m.transitions ==>
      var target := m.transitions[name].target;
      target == Some(owner) || (target.Some? && IsAncestor(owner, target.value))
  }

  predicate InitialPasses(m: Model, p: Path)
    requires p in m.vertices
  {
    var ts := m.vertices[p].transitions;
    |ts| <= 1 && (|ts| == 1 ==> TargetsNested(m, Dir(p), ts[0]))
  }

  /** A history vertex needs a default, and defaults lead inside its owner. */
  predicate HistoryPasses(m: Model, p: Path)
    requires p in m.vertices
  {
    var ts := m.vertices[p].transitions;
    ts != [] && forall i :: 0 <= i < |ts| ==> DefaultPasses(m, Dir(p), ts[i])
  }

  predicate DefaultPasses(m: Model, owner: Path, name: Path) {
    name in m.transitions && m.transitions[name].target.Some? ==> TargetsNested(m, owner, name)
  }

  method ValidateHistory(m: Model, p: Path) returns (ok: bool)
    requires p in m.vertices
    ensures ok <==> HistoryPasses(m, p)
  {
    var ts := m.vertices[p].transitions;
    if |ts| == 0 {
      return false;
    }
    var owner := Dir(p);
    for i := 0 to |ts|
      invariant forall k :: 0 <= k < i ==> DefaultPasses(m, owner, ts[k])
    {
      if ts[i] in m.transitions && m.transitions[ts[i]].target.Some? {
        var target := m.transitions[ts[i]].target.value;
        if target != owner && !IsAncestor(owner, target) {
          return false;
        }
      }
    }
    return true;
  }

  predicate HistoryOf(m: Model, owner: Path, k: VertexKind, h: Path) {
    h in m.vertices && Dir(h) == owner && m.vertices[h].kind == k
  }

  /** At most one history vertex of each kind per state. */
  ghost predicate HistoriesUnique(m: Model, owner: Path) {
    forall k, h1, h2 :: IsHistory(k) && HistoryOf(m, owner, k, h1) && HistoryOf(m, owner, k, h2) ==> h1 == h2
  }

  /** The two flags of the source, over the members in any order. */
  method ValidateStateHistories(m: Model, owner: Path) returns (ok: bool)
    ensures ok <==> HistoriesUnique(m, owner)
  {
    var hasShallow, hasDeep := false, false;
    ghost var shallow: Path, deep: Path := [], [];
    var todo := m.vertices.Keys;
    while todo != {}
      invariant todo <= m.vertices.Keys
      invariant hasShallow ==> HistoryOf(m, owner, ShallowHistory, shallow) && shallow !in todo
      invariant hasDeep ==> HistoryOf(m, owner, DeepHistory, deep) && deep !in todo
      invariant forall h :: HistoryOf(m, owner, ShallowHistory, h) && h !in todo ==> hasShallow && h == shallow
      invariant forall h :: HistoryOf(m, owner, DeepHistory, h) && h !in todo ==> hasDeep && h == deep
      decreases |todo|
    {
      var h :| h in todo;
      todo := todo - {h};
      if Dir(h) == owner {
        if m.vertices[h].kind.ShallowHistory? {
          assert HistoryOf(m, owner, ShallowHistory, h);
          if hasShallow {
            return false;
          }
          hasShallow, shallow := true, h;
        } else if m.vertices[h].kind.DeepHistory? {
          assert HistoryOf(m, owner, DeepHistory, h);
          if hasDeep {
            return false;
          }
          hasDeep, deep := true, h;
        }
      }
    }
    return true;
  }

  method EnclosingSubmachineBoundary(m: Model, name: Path) returns (boundary: Option<Path>)
    ensures boundary == Boundary(m, name)
  {
    var current := Dir(name);
    while current != []
      invariant Boundary(m, name) ==
                if current == [] then None
                else if current in m.vertices && m.vertices[current].kind.Submachine? then Some(current)
                else Boundary(m, current)
      decreases |current|
    {
      if current in m.vertices && m.vertices[current].kind.Submachine? {
        return Some(current);
      }
      current := Dir(current);
    }
    return None;
  }

  ghost predicate FinalPasses(m: Model, p: Path)
    requires p in m.vertices
  {
    m.vertices[p].transitions == [] && forall n :: n in m.transitions ==> m.transitions[n].source != p
  }

  ghost predicate Validated(m: Model) {
    && m.root in m.vertices && m.vertices[m.root].initial.Some?
    && (forall n :: n in m.transitions ==> TransitionPasses(m, m.transitions[n]))
    && (forall p :: p in m.vertices && m.vertices[p].kind.Initial? ==> InitialPasses(m, p))
    && (forall p :: p in m.vertices && IsHistory(m.vertices[p].kind) ==> HistoryPasses(m, p))
    && (forall p :: p in m.vertices && IsState(m.vertices[p].kind) ==> HistoriesUnique(m, p))
    && (forall p :: p in m.vertices && m.vertices[p].kind.Final? ==> FinalPasses(m, p))
  }

  /** What the builders see to: ownership, matching lists and names, inferred kinds, initial
      vertices under their owners. */
  ghost predicate Built(m: Model) {
    && Nested(m)
    && (forall n :: n in m.transitions ==> BuiltTransition(m, n, m.transitions[n]))
    && (forall p {:trigger ValidVertex(m, p)} :: ValidVertex(m, p))
  }

  ghost predicate BuiltTransition(m: Model, n: Path, t: Transition) {
    && t.name == n && t.kind == InferredKind(t.source, t.target)
    && (t.source in m.vertices ==> n in m.vertices[t.source].transitions)
  }

  /** A built model that passes validation has the structure the runtime theorems speak of. */
  lemma ValidatedIsStructured(m: Model)
    requires Built(m) && Validated(m)
    ensures Structured(m)
  {
    hide InitialPasses, TransitionPasses, HistoryPasses, HistoriesUnique, FinalPasses, ValidVertex, ValidTransition;
    forall n | n in m.transitions && m.transitions[n].source in m.vertices && AimsAtVertex(m, m.transitions[n])
      ensures ValidTransition(m, m.transitions[n])
    {
      assert BuiltTransition(m, n, m.transitions[n]);
      TransitionIsValid(m, m.transitions[n]);
    }
  }

  lemma TransitionIsValid(m: Model, t: Transition)
    requires t.name in m.transitions && m.transitions[t.name] == t && BuiltTransition(m, t.name, t)
    requires TransitionPasses(m, t) && t.source in m.vertices
    requires m.vertices[t.source].kind.Initial? ==> InitialPasses(m, t.source)
    requires AimsAtVertex(m, t)
    ensures ValidTransition(m, t)
  {
    hide Boundary, IsWithinBoundary;
    if m.vertices[t.source].kind.Initial? {
      assert t.name == m.vertices[t.source].transitions[0];
    }
  }

  /** What neither does is see that every transition lands: that is left to the caller. */
  lemma ValidatedIsWellFormed(m: Model)
    requires Built(m) && Validated(m) && Landing(m)
    ensures WellFormed(m)
  {
    hide Validated, Built, Lands;
    ValidatedIsStructured(m);
  }

  lemma {:induction false} BoundaryIsInnermost(m: Model, p: Path)
    ensures Boundary(m, p).Some? ==>
              && IsAncestor(Boundary(m, p).value, p)
              && Boundary(m, p).value in m.vertices && m.vertices[Boundary(m, p).value].kind.Submachine?
    ensures forall c: Path :: c != [] && IsAncestor(c, p) && c in m.vertices && m.vertices[c].kind.Submachine? ==>
              Boundary(m, p).Some? && AtOrAbove(c, Boundary(m, p).value)
    decreases |p|
  {
    if Dir(p) != [] {
      BoundaryIsInnermost(m, Dir(p));
      forall c: Path | IsAncestor(c, p)
        ensures c == Dir(p) || IsAncestor(c, Dir(p))
      {
        assert Dir(p)[..|c|] == p[..|c|];
      }
      assert forall c: Path :: IsAncestor(c, Dir(p)) ==> c == p[..|c|];
    }
  }

  /** No validated transition leaves the submachine its source is in, and one that reaches into
      a submachine its source is not in was declared inside that submachine. */
  lemma BoundariesAreRespected(m: Model, t: Transition)
    requires TransitionPasses(m, t) && t.target.Some?
    ensures forall b: Path :: Boundary(m, t.source) == Some(b) ==> IsAncestor(b, t.target.value)
    ensures forall b: Path :: Boundary(m, t.target.value) == Some(b) ==>
              IsAncestor(b, t.source) || IsWithinBoundary(Dir(t.name), b)
  {
    BoundaryIsInnermost(m, t.source);
    BoundaryIsInnermost(m, t.target.value);
  }

  /** What acceptance means for a pseudostate. A history vertex has a default, and every live default
      with a target leads to its owner or inside it; an initial vertex has one transition at most,
      without a guard and for the initial event only, which leads to its owner or inside it. */
  lemma AcceptedPseudostate(m: Model, p: Path, n: Path)
    requires Built(m) && Validated(m) && p in m.vertices && n in m.vertices[p].transitions && n in m.transitions
    ensures IsHistory(m.vertices[p].kind) && m.transitions[n].target.Some? ==>
              AtOrAbove(Dir(p), m.transitions[n].target.value)
    ensures m.vertices[p].kind.Initial? ==>
              && |m.vertices[p].transitions| == 1 && m.transitions[n].guard.None?
              && m.transitions[n].target.Some? && AtOrAbove(Dir(p), m.transitions[n].target.value)
              && forall e :: e in m.transitions[n].events ==> e == "hsm/initial"
    ensures !IsState(m.vertices[p].kind) ==> m.transitions[n].target.Some?
    ensures !IsState(m.vertices[p].kind) && !m.vertices[p].kind.Initial? ==> m.transitions[n].events == []
  {
    BranchSource(m, p, n);
    Checked(m, p, n);
    hide Built, Validated, TransitionPasses, HistoryPasses, InitialPasses;
    if !IsState(m.vertices[p].kind) {
      PassingBranch(m, m.transitions[n]);
    }
    if IsHistory(m.vertices[p].kind) {
      PassingDefault(m, p, n);
    } else if m.vertices[p].kind.Initial? {
      PassingInitial(m, p, n);
    }
  }

  lemma BranchSource(m: Model, p: Path, n: Path)
    requires Built(m) && p in m.vertices && n in m.vertices[p].transitions && n in m.transitions
    ensures m.transitions[n].source == p
  {
    assert ValidVertex(m, p);
  }

  lemma Checked(m: Model, p: Path, n: Path)
    requires Validated(m) && p in m.vertices && n in m.transitions
    ensures TransitionPasses(m, m.transitions[n])
    ensures IsHistory(m.vertices[p].kind) ==> HistoryPasses(m, p)
    ensures m.vertices[p].kind.Initial? ==> InitialPasses(m, p)
  {
    hide TransitionPasses, HistoryPasses, InitialPasses, HistoriesUnique, FinalPasses;
  }

  lemma PassingDefault(m: Model, p: Path, n: Path)
    requires p in m.vertices && HistoryPasses(m, p) && n in m.vertices[p].transitions && n in m.transitions
    ensures m.transitions[n].target.Some? ==> AtOrAbove(Dir(p), m.transitions[n].target.value)
  {
    var i :| 0 <= i < |m.vertices[p].transitions| && m.vertices[p].transitions[i] == n;
    assert DefaultPasses(m, Dir(p), m.vertices[p].transitions[i]);
  }

  lemma PassingInitial(m: Model, p: Path, n: Path)
    requires p in m.vertices && InitialPasses(m, p) && n in m.vertices[p].transitions && n in m.transitions
    ensures |m.vertices[p].transitions| == 1
    ensures m.transitions[n].target.Some? && AtOrAbove(Dir(p), m.transitions[n].target.value)
  {
  }

  lemma PassingBranch(m: Model, t: Transition)
    requires t.source in m.vertices && !IsState(m.vertices[t.source].kind) && TransitionPasses(m, t)
    ensures t.target.Some?
    ensures if m.vertices[t.source].kind.Initial? then
              t.guard.None? && forall e :: e in t.events ==> e == "hsm/initial"
            else t.events == []
  {
    hide Boundary, Members;
  }

  /** And for a state: its transitions have triggers, a final state has none, and it owns at most one
      history vertex of each kind. */
  lemma AcceptedState(m: Model, p: Path, h1: Path, h2: Path)
    requires Built(m) && Validated(m) && p in m.vertices && IsState(m.vertices[p].kind)
    ensures forall n :: n in m.transitions && m.transitions[n].source == p ==>
              m.transitions[n].events != [] && !m.vertices[p].kind.Final?
    ensures (h1 in m.vertices && h2 in m.vertices && Dir(h1) == p && Dir(h2) == p
             && m.vertices[h1].kind == m.vertices[h2].kind && IsHistory(m.vertices[h1].kind)) ==> h1 == h2
    ensures forall h :: h in m.vertices && IsHistory(m.vertices[h].kind) ==> m.vertices[h].transitions != []
  {
    assert m.vertices[p].kind.Final? ==> FinalPasses(m, p);
    forall n | n in m.transitions && m.transitions[n].source == p
      ensures m.transitions[n].events != [] && !m.vertices[p].kind.Final?
    {
      assert TransitionPasses(m, m.transitions[n]);
    }
    assert HistoriesUnique(m, p);
    if h1 in m.vertices && h2 in m.vertices && Dir(h1) == p && Dir(h2) == p
       && m.vertices[h1].kind == m.vertices[h2].kind && IsHistory(m.vertices[h1].kind) {
      assert HistoryOf(m, p, m.vertices[h1].kind, h1) && HistoryOf(m, p, m.vertices[h1].kind, h2);
    }
    forall h | h in m.vertices && IsHistory(m.vertices[h].kind)
      ensures m.vertices[h].transitions != []
    {
      assert HistoryPasses(m, h);
    }
  }

  /** And for a transition: its ends are members, it is declared within the submachine its source is
      in, it does not leave that submachine, and one declared by the root for the root itself names
      its source by having the final event for a trigger. */
  lemma AcceptedTransition(m: Model, n: Path)
    requires Validated(m) && n in m.transitions
    ensures var t := m.transitions[n];
            && (t.source in m.vertices || t.source in m.transitions || t.source in m.parts)
            && (t.target.Some? ==>
                  t.target.value in m.vertices || t.target.value in m.transitions || t.target.value in m.parts)
            && (forall b :: Boundary(m, t.source) == Some(b) ==>
                  AtOrAbove(b, Dir(t.name)) && (t.target.Some? ==> IsAncestor(b, t.target.value)))
            && (Dir(t.name) == m.root && t.source == m.root && t.target.Some? ==> "hsm/final" in t.events)
  {
    var t := m.transitions[n];
    assert TransitionPasses(m, t);
    if t.target.Some? {
      BoundariesAreRespected(m, t);
    }
  }
}
