/** Removing a member and everything declared under it, when a redefinition replaces it. */
module Redefinition {
  import opened Options
  import opened Paths

  /** A state or pseudostate with the names of its transitions, a transition, or anything else. */
  datatype Member = Owner(transitions: seq<Path>) | Edge(source: Path, target: Option<Path>, guarded: bool) | Other

  type Members = map<Path, Member>

  // ----- what is removed -----

  predicate Falls(q: Path, name: Path, m: Member) {
    && m.Edge?
    && (AtOrAbove(q, name) || AtOrAbove(q, m.source) || (m.target.Some? && IsAncestor(q, m.target.value)))
  }

  function Fallen(ms: Members, q: Path): set<Path> {
    set n | n in ms && Falls(q, n, ms[n])
  }

  function Without(values: seq<Path>, gone: set<Path>): (r: seq<Path>) {
    if values == [] then []
    else if values[0] in gone then Without(values[1..], gone)
    else [values[0]] + Without(values[1..], gone)
  }

  function Stripped(m: Member, gone: set<Path>): Member {
    if m.Owner? then Owner(Without(m.transitions, gone)) else m
  }

  ghost predicate Hit(gone: set<Path>, n: Path) {
    exists t :: t in gone && AtOrAbove(t, n)
  }

  /** The members after the transitions in `gone`, and all that is named beneath them, are removed. */
  ghost function Stage(ms: Members, gone: set<Path>): Members {
    map n | n in ms && !Hit(gone, n) :: Stripped(ms[n], gone)
  }

  function Outside(ms: Members, q: Path): Members {
    map n | n in ms && !AtOrAbove(q, n) :: ms[n]
  }

  ghost function Remaining(ms: Members, q: Path): Members {
    Outside(Stage(ms, Fallen(ms, q)), q)
  }

  lemma {:induction false} WithoutNone(values: seq<Path>)
    ensures Without(values, {}) == values
    decreases |values|
  {
    if values != [] {
      WithoutNone(values[1..]);
    }
  }

  lemma {:induction false} WithoutTwice(values: seq<Path>, gone: set<Path>, t: Path)
    ensures Without(Without(values, gone), {t}) == Without(values, gone + {t})
    decreases |values|
  {
    if values != [] {
      WithoutTwice(values[1..], gone, t);
      if values[0] !in gone {
        assert ([values[0]] + Without(values[1..], gone))[1..] == Without(values[1..], gone);
      }
    }
  }

  lemma {:induction false} WithoutSnoc(values: seq<Path>, v: Path, gone: set<Path>)
    ensures Without(values + [v], gone) == Without(values, gone) + if v in gone then [] else [v]
    decreases |values|
  {
    if values == [] {
      assert [v][1..] == [];
    } else {
      WithoutSnoc(values[1..], v, gone);
      assert (values + [v])[1..] == values[1..] + [v];
    }
  }

  lemma {:induction false} WithoutMembers(values: seq<Path>, gone: set<Path>, t: Path)
    ensures t in Without(values, gone) <==> t in values && t !in gone
    decreases |values|
  {
    if values != [] {
      WithoutMembers(values[1..], gone, t);
    }
  }

  // ----- removing it -----

  /** Compact the slice in place: the kept names move down over the removed ones. */
  method RemoveString(values: array<Path>, length: nat, target: Path) returns (kept: nat)
    requires length <= values.Length
    modifies values
    ensures kept <= length && values[..kept] == Without(old(values[..length]), {target})
    ensures forall k :: length <= k < values.Length ==> values[k] == old(values[k])
  {
    kept := 0;
    for i := 0 to length
      invariant kept <= i && values[..kept] == Without(old(values[..i]), {target})
      invariant forall k :: i <= k < values.Length ==> values[k] == old(values[k])
    {
      WithoutSnoc(old(values[..i]), old(values[i]), {target});
      assert old(values[..i + 1]) == old(values[..i]) + [old(values[i])];
      if values[i] != target {
        values[kept] := values[i];
        kept := kept + 1;
      }
    }
  }

  class MemberTable {
    var members: Members

    constructor (members: Members)
      ensures this.members == members
    {
      this.members := members;
    }

    method RemoveTransitionReference(t: Path)
      modifies this
      ensures members == map n | n in old(members) :: Stripped(old(members)[n], {t})
    {
      var todo := members.Keys;
      while todo != {}
        invariant todo <= members.Keys == old(members).Keys
        invariant forall n :: n in members ==>
          members[n] == if n in todo then old(members)[n] else Stripped(old(members)[n], {t})
        decreases |todo|
      {
        var n :| n in todo;
        todo := todo - {n};
        var m := members[n];
        if m.Owner? {
          var slice := new Path[|m.transitions|](i requires 0 <= i < |m.transitions| => m.transitions[i]);
          assert slice[..|m.transitions|] == m.transitions;
          var kept := RemoveString(slice, |m.transitions|, t);
          members := members[n := Owner(slice[..kept])];
        }
      }
    }

    /** Delete a member and all that is named beneath it. */
    method DeleteSubtree(q: Path)
      modifies this
      ensures members == Outside(old(members), q)
    {
      var todo := members.Keys;
      while todo != {}
        invariant todo <= members.Keys <= old(members).Keys
        invariant forall n :: n in old(members) ==> (n in members <==> n in todo || !AtOrAbove(q, n))
        invariant forall n :: n in members ==> members[n] == old(members)[n]
        decreases |todo|
      {
        var n :| n in todo;
        todo := todo - {n};
        if n == q || IsAncestor(q, n) {
          members := members - {n};
        }
      }
    }

    method FallenTransitions(q: Path) returns (removed: set<Path>)
      ensures removed == Fallen(members, q)
    {
      removed := {};
      var todo := members.Keys;
      while todo != {}
        invariant todo <= members.Keys
        invariant forall n :: n in removed <==> n in members && n !in todo && Falls(q, n, members[n])
        decreases |todo|
      {
        var n :| n in todo;
        todo := todo - {n};
        var m := members[n];
        if m.Edge? {
          if n == q || IsAncestor(q, n) || m.source == q || IsAncestor(q, m.source)
             || (m.target.Some? && IsAncestor(q, m.target.value)) {
            removed := removed + {n};
          }
        }
      }
    }

    method RemoveMemberSubtree(q: Path)
      modifies this
      ensures members == Remaining(old(members), q)
    {
      var removed := FallenTransitions(q);
      var left := removed;
      StageNone(members);
      assert removed - left == {};
      while left != {}
        invariant left <= removed && members == Stage(old(members), removed - left)
        decreases |left|
      {
        var t :| t in left;
        StageNext(old(members), removed - left, t);
        assert removed - left + {t} == removed - (left - {t});
        left := left - {t};
        RemoveTransitionReference(t);
        DeleteSubtree(t);
      }
      assert removed - left == removed;
      DeleteSubtree(q);
    }
  }

  lemma StageNone(ms: Members)
    ensures Stage(ms, {}) == ms
  {
    forall n | n in ms
      ensures Stripped(ms[n], {}) == ms[n]
    {
      if ms[n].Owner? {
        WithoutNone(ms[n].transitions);
      }
    }
  }

  lemma StageNext(ms: Members, gone: set<Path>, t: Path)
    ensures
      var before := Stage(ms, gone);
      Stage(ms, gone + {t}) == Outside(map n | n in before :: Stripped(before[n], {t}), t)
  {
    forall n | n in ms
      ensures Stripped(Stripped(ms[n], gone), {t}) == Stripped(ms[n], gone + {t})
    {
      if ms[n].Owner? {
        WithoutTwice(ms[n].transitions, gone, t);
      }
    }
  }

  // ----- what removal keeps -----

  /** Every transition a vertex lists is a live transition. */
  predicate Integral(ms: Members) {
    forall n, t :: n in ms && ms[n].Owner? && t in ms[n].transitions ==> t in ms && ms[t].Edge?
  }

  predicate NoneBeneath(ms: Members) {
    forall t, u :: t in ms && ms[t].Edge? && u in ms && ms[u].Edge? ==> !IsAncestor(t, u)
  }

  predicate Survives(ms: Members, q: Path, n: Path): (r: bool)
    ensures r ==> n in ms
  {
    n in ms && !AtOrAbove(q, n) && forall t :: t in Fallen(ms, q) ==> !AtOrAbove(t, n)
  }

  lemma SurvivorsRemain(ms: Members, q: Path, n: Path)
    ensures n in Remaining(ms, q) <==> Survives(ms, q, n)
    ensures n in Remaining(ms, q) ==> Remaining(ms, q)[n] == Stripped(ms[n], Fallen(ms, q))
  {
    assert Hit(Fallen(ms, q), n) <==> exists t :: t in Fallen(ms, q) && AtOrAbove(t, n);
  }

  /** A surviving vertex lists a transition that does not fall but is named beneath one that does. */
  predicate LosesListed(ms: Members, q: Path, n: Path, t: Path) {
    && Survives(ms, q, n) && ms[n].Owner? && t in ms[n].transitions
    && t !in Fallen(ms, q) && !Survives(ms, q, t)
  }

  /** Removal keeps referential integrity exactly unless a listed transition is lost to one it
      is named beneath. */
  lemma RemovalKeepsIntegrityExactly(ms: Members, q: Path)
    requires Integral(ms)
    ensures Integral(Remaining(ms, q)) <==> !(exists n, t :: LosesListed(ms, q, n, t))
  {
    hide Remaining, Survives;
    var after, gone := Remaining(ms, q), Fallen(ms, q);
    forall n
      ensures n in after <==> Survives(ms, q, n)
      ensures n in after ==> after[n] == Stripped(ms[n], gone)
    {
      SurvivorsRemain(ms, q, n);
    }
    if n, t :| LosesListed(ms, q, n, t) {
      WithoutMembers(ms[n].transitions, gone, t);
      assert t in after[n].transitions && t !in after;
    } else {
      forall n, t | n in after && after[n].Owner? && t in after[n].transitions
        ensures t in after && after[t].Edge?
      {
        WithoutMembers(ms[n].transitions, gone, t);
        assert !LosesListed(ms, q, n, t);
      }
    }
  }

  lemma RemovalKeepsIntegrity(ms: Members, q: Path)
    requires Integral(ms) && NoneBeneath(ms)
    ensures Integral(Remaining(ms, q)) && NoneBeneath(Remaining(ms, q))
  {
    hide Integral, Remaining, Survives;
    RemovalKeepsIntegrityExactly(ms, q);
    forall n, t
      ensures !LosesListed(ms, q, n, t)
    {
      if Survives(ms, q, n) && n in ms && ms[n].Owner? && t in ms[n].transitions && t in ms && ms[t].Edge? {
        EdgeSurvives(ms, q, t);
        SurvivorsRemain(ms, q, t);
      } else if LosesListed(ms, q, n, t) {
        ListedIsEdge(ms, n, t);
      }
    }
    RemovalKeepsNoneBeneath(ms, q);
  }

  lemma ListedIsEdge(ms: Members, n: Path, t: Path)
    requires Integral(ms) && n in ms && ms[n].Owner? && t in ms[n].transitions
    ensures t in ms && ms[t].Edge?
  {
  }

  lemma RemovalKeepsNoneBeneath(ms: Members, q: Path)
    requires NoneBeneath(ms)
    ensures NoneBeneath(Remaining(ms, q))
  {
    hide Remaining, Survives;
    forall t, u | t in Remaining(ms, q) && Remaining(ms, q)[t].Edge? &&
      u in Remaining(ms, q) && Remaining(ms, q)[u].Edge?
      ensures !IsAncestor(t, u)
    {
      SurvivorsRemain(ms, q, t);
      SurvivorsRemain(ms, q, u);
    }
  }

  /** Exactly the transitions that do not fall survive, with their ends as they were: none with
      its source at or below the removed name, none aimed strictly below it. One aimed at the
      name itself stays, for the member that takes its place. */
  lemma EdgeSurvives(ms: Members, q: Path, t: Path)
    requires NoneBeneath(ms) && t in ms && ms[t].Edge?
    ensures t in Remaining(ms, q) <==> !Falls(q, t, ms[t])
    ensures t in Remaining(ms, q) ==> Remaining(ms, q)[t] == ms[t]
    ensures t in Remaining(ms, q) ==>
      !AtOrAbove(q, ms[t].source) && (ms[t].target.Some? ==> !IsAncestor(q, ms[t].target.value))
  {
    assert AtOrAbove(t, t);
    forall u | u in Fallen(ms, q) && AtOrAbove(u, t)
      ensures u == t
    {
      assert !IsAncestor(u, t);
    }
  }

  /** Only behaviours and guards are declared beneath a transition. */
  predicate OnlyPartsBeneath(ms: Members) {
    forall t, n :: t in ms && ms[t].Edge? && n in ms && IsAncestor(t, n) ==> ms[n].Other?
  }

  predicate SourcesLive(ms: Members) {
    forall t :: t in ms && ms[t].Edge? ==> ms[t].source in ms && ms[ms[t].source].Owner?
  }

  lemma SourceSurvives(ms: Members, q: Path, t: Path)
    requires OnlyPartsBeneath(ms) && SourcesLive(ms) && t in ms && ms[t].Edge? && !Falls(q, t, ms[t])
    ensures Survives(ms, q, ms[t].source)
  {
    var s := ms[t].source;
    forall u | u in Fallen(ms, q)
      ensures !AtOrAbove(u, s)
    {
      assert u != s && !IsAncestor(u, s);
    }
  }

  /** No surviving transition loses its source vertex. */
  lemma RemovalKeepsSources(ms: Members, q: Path)
    requires OnlyPartsBeneath(ms) && SourcesLive(ms)
    ensures SourcesLive(Remaining(ms, q))
  {
    hide Remaining, Falls, Survives, OnlyPartsBeneath;
    var after := Remaining(ms, q);
    forall t | t in after && after[t].Edge?
      ensures after[t].source in after && after[after[t].source].Owner?
    {
      SurvivorsRemain(ms, q, t);
      SurvivorDoesNotFall(ms, q, t);
      SourceSurvives(ms, q, t);
      SurvivorsRemain(ms, q, ms[t].source);
    }
  }

  lemma SurvivorDoesNotFall(ms: Members, q: Path, t: Path)
    requires Survives(ms, q, t)
    ensures t in ms && !Falls(q, t, ms[t])
  {
    assert AtOrAbove(t, t);
  }

  /** The condition on names is needed: with "/m/t" from "/m/a", and beneath it "/m/t/u" from "/m",
      removing "/m/a" loses the second transition while "/m" goes on listing it. */
  lemma NestedTransitionIsLost(m: Path, a: Path, t: Path, u: Path)
    requires m == ["m"] && a == ["m", "a"] && t == ["m", "t"] && u == ["m", "t", "u"]
    ensures
      var ms: Members := map[m := Owner([u]), t := Edge(a, None, false), u := Edge(m, None, false)];
      Integral(ms) && !Integral(Remaining(ms, a))
  {
    hide Remaining, Survives;
    var ms: Members := map[m := Owner([u]), t := Edge(a, None, false), u := Edge(m, None, false)];
    assert "a" != "t" by {
      assert "a"[0] != "t"[0];
    }
    assert t[..2][1] != a[1] && u[..2][1] != a[1];
    assert Falls(a, t, ms[t]) && !Falls(a, u, ms[u]);
    assert Fallen(ms, a) == {t};
    SurvivesByFallen(ms, a, m);
    SurvivesByFallen(ms, a, u);
    assert AtOrAbove(t, u);
    assert LosesListed(ms, a, m, u);
    RemovalKeepsIntegrityExactly(ms, a);
  }

  lemma SurvivesByFallen(ms: Members, q: Path, n: Path)
    ensures Survives(ms, q, n) <==> n in ms && !AtOrAbove(q, n) && forall t :: t in Fallen(ms, q) ==> !AtOrAbove(t, n)
  {
  }

  // ----- what removal does to a choice -----

  predicate IsDefault(ms: Members, t: Path) {
    t in ms && ms[t].Edge? && !ms[t].guarded
  }

  /** The vertex lists a live transition without a guard. */
  predicate HasDefault(ms: Members, c: Path) {
    c in ms && ms[c].Owner? && exists t :: t in ms[c].transitions && IsDefault(ms, t)
  }

  /** A surviving choice keeps a default exactly when one of its defaults is neither at or below
      the removed name nor aimed strictly below it. */
  lemma ChoiceKeepsDefault(ms: Members, q: Path, c: Path)
    requires NoneBeneath(ms) && Survives(ms, q, c) && ms[c].Owner?
    requires forall t :: t in ms[c].transitions && t in ms && ms[t].Edge? ==> ms[t].source == c
    ensures HasDefault(Remaining(ms, q), c) <==>
            exists t :: t in ms[c].transitions && IsDefault(ms, t) && !AtOrAbove(q, t)
                        && (ms[t].target.Some? ==> !IsAncestor(q, ms[t].target.value))
  {
    hide Remaining, Survives, NoneBeneath;
    var after := Remaining(ms, q);
    SurvivorsRemain(ms, q, c);
    SurvivorIsOutside(ms, q, c);
    forall t | t in ms[c].transitions && IsDefault(ms, t)
      ensures t in after[c].transitions && IsDefault(after, t) <==>
              !AtOrAbove(q, t) && (ms[t].target.Some? ==> !IsAncestor(q, ms[t].target.value))
    {
      WithoutMembers(ms[c].transitions, Fallen(ms, q), t);
      EdgeSurvives(ms, q, t);
    }
    forall t | t in after[c].transitions && IsDefault(after, t)
      ensures t in ms[c].transitions && IsDefault(ms, t)
    {
      WithoutMembers(ms[c].transitions, Fallen(ms, q), t);
      SurvivorsRemain(ms, q, t);
    }
  }

  lemma SurvivorIsOutside(ms: Members, q: Path, c: Path)
    requires Survives(ms, q, c)
    ensures !AtOrAbove(q, c)
  {
  }

  /** So redefining the state around what its only branch leads to empties a choice. */
  lemma RedefinitionEmptiesChoice(ms: Members, q: Path, c: Path, branch: Path)
    requires Integral(ms) && NoneBeneath(ms) && Survives(ms, q, c) && ms[c] == Owner([branch])
    requires branch in ms && ms[branch].Edge? && ms[branch].source == c
    requires ms[branch].target.Some? && IsAncestor(q, ms[branch].target.value)
    ensures c in Remaining(ms, q) && Remaining(ms, q)[c] == Owner([])
  {
    hide Remaining, Survives;
    SurvivorsRemain(ms, q, c);
    assert branch in Fallen(ms, q);
    assert Without([branch], Fallen(ms, q)) == Without([branch][1..], Fallen(ms, q));
  }

  // ----- what the builders guarantee -----

  /** Vertices and transitions are declared in vertices. */
  predicate DeclaredInVertices(ms: Members, root: Path) {
    forall n :: n in ms && !ms[n].Other? && n != root ==> n != [] && Dir(n) in ms && ms[Dir(n)].Owner?
  }

  lemma {:induction false} ChainOfOwners(ms: Members, root: Path, n: Path, u: Path)
    requires DeclaredInVertices(ms, root) && |root| == 1 && root in ms && ms[root].Owner?
    requires u in ms && !ms[u].Other? && IsAncestor(n, u) && AtOrAbove(root, n)
    ensures n in ms && ms[n].Owner?
    decreases |u|
  {
    if n != Dir(u) {
      assert IsAncestor(n, Dir(u));
      ChainOfOwners(ms, root, n, Dir(u));
    }
  }

  /** So no transition of a built model is named beneath another: on those, removal always keeps
      referential integrity, and the input above is one for the function alone. */
  lemma BuiltHasNoneBeneath(ms: Members, root: Path)
    requires DeclaredInVertices(ms, root) && |root| == 1 && root in ms && ms[root].Owner?
    requires forall n :: n in ms ==> AtOrAbove(root, n)
    ensures NoneBeneath(ms)
  {
    forall t, u | t in ms && ms[t].Edge? && u in ms && ms[u].Edge?
      ensures !IsAncestor(t, u)
    {
      if IsAncestor(t, u) {
        ChainOfOwners(ms, root, t, u);
      }
    }
  }

  // ----- what remains, name by name -----

  /** A transition named at or below `q`, starting there, or aimed strictly below it. */
  predicate Touched(ms: Members, q: Path, t: Path) {
    && t in ms && ms[t].Edge?
    && (AtOrAbove(q, t) || AtOrAbove(q, ms[t].source) || (ms[t].target.Some? && IsAncestor(q, ms[t].target.value)))
  }

  /** A member remains exactly when it is neither at or below the removed name nor at or below a
      transition touched by the removal; transitions and other members are as they were. */
  lemma RemainsExactly(ms: Members, q: Path, n: Path)
    ensures n in Remaining(ms, q) <==>
            n in ms && !AtOrAbove(q, n) && forall t :: Touched(ms, q, t) ==> !AtOrAbove(t, n)
    ensures n in Remaining(ms, q) && !ms[n].Owner? ==> Remaining(ms, q)[n] == ms[n]
    ensures n in Remaining(ms, q) && ms[n].Owner? ==> Remaining(ms, q)[n].Owner?
  {
    var gone := Fallen(ms, q);
    forall t
      ensures t in gone <==> Touched(ms, q, t)
    {
    }
  }

  /** A list of names keeps the others, each in its place. */
  lemma {:induction false} EachNameByItself(values: seq<Path>, gone: set<Path>, i: nat)
    requires i < |values|
    ensures Without(values, gone) ==
            Without(values[..i], gone) + (if values[i] in gone then [] else [values[i]])
            + Without(values[i + 1..], gone)
    decreases values
  {
    if i == 0 {
      assert values[..0] == [];
    } else {
      EachNameByItself(values[1..], gone, i - 1);
      assert values[..i][1..] == values[1..][..i - 1] && values[1..][i..] == values[i + 1..];
    }
  }

  /** What a vertex that remains lists: what it listed, without the transitions touched. */
  lemma ListRemains(ms: Members, q: Path, n: Path)
    requires n in Remaining(ms, q) && ms[n].Owner?
    ensures Remaining(ms, q)[n].Owner?
    ensures exists gone: set<Path> :: (forall t :: t in gone <==> Touched(ms, q, t))
              && Remaining(ms, q)[n].transitions == Without(ms[n].transitions, gone)
  {
    var gone := Fallen(ms, q);
    assert forall t :: t in gone <==> Touched(ms, q, t);
    assert Remaining(ms, q)[n].transitions == Without(ms[n].transitions, gone);
  }
}
