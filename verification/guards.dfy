/** Which branch is taken: the first whose guard is absent or holds at the moment it is its turn. */
module Guards {
  import opened Options
  import opened Paths
  import opened Models
  import opened Semantics
  import opened RunToCompletion

  /** Whether the transition is enabled, its guard being read at the given moment. */
  predicate HoldsAt(c: Context, t: Transition, moment: nat) {
    t.guard.Some? ==> c.env.guard(t.guard.value, c.event, moment)
  }

  // ----- names of branches -----

  /** How many guards there are to read among the live names. */
  function Readings(m: Model, names: seq<Path>): nat {
    if names == [] then 0
    else (if names[0] in m.transitions && m.transitions[names[0]].guard.Some? then 1 else 0) + Readings(m, names[1..])
  }

  /** When it is the turn of name `i`, after one reading for each guard before it. */
  function Moment(c: Context, w: World, names: seq<Path>, i: nat): nat
    requires i <= |names|
  {
    w.clock + Readings(c.model, names[..i])
  }

  /** Name `i` is the live transition `t`, enabled in its turn, and no live name before it is. */
  ghost predicate FirstAt(c: Context, w: World, names: seq<Path>, t: Transition, i: int) {
    && 0 <= i < |names| && names[i] in c.model.transitions && c.model.transitions[names[i]] == t
    && HoldsAt(c, t, Moment(c, w, names, i))
    && NoneBefore(c, w, names, i)
  }

  ghost predicate NoneBefore(c: Context, w: World, names: seq<Path>, i: int)
    requires i <= |names|
  {
    forall j :: 0 <= j < i && names[j] in c.model.transitions ==>
      !HoldsAt(c, c.model.transitions[names[j]], Moment(c, w, names, j))
  }

  ghost predicate IsFirst(c: Context, w: World, names: seq<Path>, t: Transition) {
    exists i :: FirstAt(c, w, names, t, i)
  }

  lemma MomentLater(c: Context, w: World, names: seq<Path>, j: nat)
    requires names != [] && j < |names|
    ensures var w' := if names[0] in c.model.transitions then Enabled(c, w, c.model.transitions[names[0]]).0 else w;
            Moment(c, w', names[1..], j) == Moment(c, w, names, j + 1)
  {
    assert names[..j + 1][1..] == names[1..][..j];
  }

  /** The source's search: whatever the guards do from one reading to the next, it returns a branch
      exactly when that branch is the first enabled in its turn, and reads each guard up to it once. */
  lemma {:induction false} FirstEnabledExactly(c: Context, w: World, names: seq<Path>)
    ensures var (w', found) := FirstEnabled(c, w, names);
            && (forall t :: found == Some(t) <==> IsFirst(c, w, names, t))
            && (found.None? <==> NoneBefore(c, w, names, |names|))
            && (found.None? ==> w' == w.(clock := Moment(c, w, names, |names|)))
            && (forall t, i :: FirstAt(c, w, names, t, i) ==> w' == w.(clock := Moment(c, w, names, i + 1)))
    decreases names
  {
    hide HoldsAt, Enabled;
    if names == [] {
      assert NoneBefore(c, w, names, 0);
      assert names[..0] == [];
    } else {
      FirstTurn(c, w, names);
      if names[0] !in c.model.transitions || !Enabled(c, w, c.model.transitions[names[0]]).1 {
        var w' := if names[0] in c.model.transitions then Enabled(c, w, c.model.transitions[names[0]]).0 else w;
        FirstEnabledExactly(c, w', names[1..]);
        LaterTurns(c, w, w', names);
        SomeTurn(c, w, w', names);
      } else {
        HitAtOnce(c, w, names);
      }
    }
  }

  lemma FirstTurn(c: Context, w: World, names: seq<Path>)
    requires names != []
    ensures names[0] in c.model.transitions ==>
              var t := c.model.transitions[names[0]];
              && Enabled(c, w, t).1 == HoldsAt(c, t, Moment(c, w, names, 0))
              && Enabled(c, w, t).0 == w.(clock := Moment(c, w, names, 1))
    ensures names[0] !in c.model.transitions ==> Moment(c, w, names, 1) == w.clock
    ensures Moment(c, w, names, 0) == w.clock
  {
    assert names[..0] == [] && names[..1] == [names[0]] && [names[0]][1..] == [];
    assert Readings(c.model, []) == 0;
    assert Readings(c.model, [names[0]]) ==
           if names[0] in c.model.transitions && c.model.transitions[names[0]].guard.Some? then 1 else 0;
  }

  lemma HitAtOnce(c: Context, w: World, names: seq<Path>)
    requires names != [] && names[0] in c.model.transitions
    requires HoldsAt(c, c.model.transitions[names[0]], Moment(c, w, names, 0))
    ensures forall t, i :: FirstAt(c, w, names, t, i) <==> i == 0 && t == c.model.transitions[names[0]]
    ensures FirstAt(c, w, names, c.model.transitions[names[0]], 0)
    ensures !NoneBefore(c, w, names, |names|)
  {
    hide HoldsAt, Moment;
  }

  /** Shifting the position by one is all that skipping the first name does. */
  lemma SomeTurn(c: Context, w: World, w': World, names: seq<Path>)
    requires names != []
    requires forall t, i :: 0 <= i ==> (FirstAt(c, w', names[1..], t, i) <==> FirstAt(c, w, names, t, i + 1))
    requires forall t :: !FirstAt(c, w, names, t, 0)
    ensures forall t :: IsFirst(c, w, names, t) <==> IsFirst(c, w', names[1..], t)
    ensures forall t, i :: FirstAt(c, w, names, t, i) ==> 0 < i && FirstAt(c, w', names[1..], t, i - 1)
  {
    forall t, i | FirstAt(c, w, names, t, i)
      ensures 0 < i && FirstAt(c, w', names[1..], t, i - 1)
    {
      assert i == (i - 1) + 1;
    }
    forall t, i | FirstAt(c, w', names[1..], t, i)
      ensures FirstAt(c, w, names, t, i + 1)
    {
    }
  }

  lemma LaterTurns(c: Context, w: World, w': World, names: seq<Path>)
    requires names != []
    requires w' == if names[0] in c.model.transitions then Enabled(c, w, c.model.transitions[names[0]]).0 else w
    requires names[0] in c.model.transitions ==> !HoldsAt(c, c.model.transitions[names[0]], Moment(c, w, names, 0))
    ensures forall t, i :: 0 <= i ==> (FirstAt(c, w', names[1..], t, i) <==> FirstAt(c, w, names, t, i + 1))
    ensures forall t :: !FirstAt(c, w, names, t, 0)
    ensures forall i :: 0 <= i <= |names[1..]| ==>
              (NoneBefore(c, w', names[1..], i) <==> NoneBefore(c, w, names, i + 1))
    ensures forall i :: 0 <= i <= |names[1..]| ==> Moment(c, w', names[1..], i) == Moment(c, w, names, i + 1)
  {
    hide HoldsAt, Enabled, Moment;
    var rest := names[1..];
    forall i | 0 <= i <= |rest|
      ensures Moment(c, w', rest, i) == Moment(c, w, names, i + 1)
    {
      if i < |names| {
        MomentLater(c, w, names, i);
      }
    }
    forall i | 0 <= i <= |rest|
      ensures NoneBefore(c, w', rest, i) <==> NoneBefore(c, w, names, i + 1)
    {
      assert forall j :: 0 < j < |names| ==> names[j] == rest[j - 1];
    }
  }

  /** With guards that hold still, the first branch that is enabled. */
  lemma FirstEnabledOfSteady(c: Context, w: World, names: seq<Path>, t: Transition)
    requires forall g, n: nat :: c.env.guard(g, c.event, n) == c.env.guard(g, c.event, 0)
    ensures FirstEnabled(c, w, names).1 == Some(t) <==>
            exists i :: 0 <= i < |names| && names[i] in c.model.transitions && c.model.transitions[names[i]] == t
                        && HoldsAt(c, t, 0)
                        && forall j :: 0 <= j < i && names[j] in c.model.transitions ==>
                             !HoldsAt(c, c.model.transitions[names[j]], 0)
  {
    FirstEnabledExactly(c, w, names);
    if i :| FirstAt(c, w, names, t, i) {
      assert HoldsAt(c, t, 0);
    }
    if i :| 0 <= i < |names| && names[i] in c.model.transitions && c.model.transitions[names[i]] == t
            && HoldsAt(c, t, 0)
            && forall j :: 0 <= j < i && names[j] in c.model.transitions ==>
                 !HoldsAt(c, c.model.transitions[names[j]], 0)
    {
      assert FirstAt(c, w, names, t, i);
    }
  }

  // ----- rows of transitions -----

  function RowReadings(ts: seq<Transition>): nat {
    if ts == [] then 0 else (if ts[0].guard.Some? then 1 else 0) + RowReadings(ts[1..])
  }

  function RowMoment(w: World, ts: seq<Transition>, i: nat): nat
    requires i <= |ts|
  {
    w.clock + RowReadings(ts[..i])
  }

  ghost predicate RowRefuses(c: Context, w: World, ts: seq<Transition>, i: int)
    requires i <= |ts|
  {
    forall j :: 0 <= j < i ==> !HoldsAt(c, ts[j], RowMoment(w, ts, j))
  }

  /** Transition `i` of a row is enabled in its turn, and none before it is. */
  ghost predicate FirstInRow(c: Context, w: World, ts: seq<Transition>, i: int) {
    0 <= i < |ts| && HoldsAt(c, ts[i], RowMoment(w, ts, i)) && RowRefuses(c, w, ts, i)
  }

  /** One pass over a row chooses the first transition enabled in its turn, and reads each guard up
      to it once. */
  lemma {:induction false} ChooseExactly(c: Context, w: World, ts: seq<Transition>) returns (i: nat)
    ensures var (w', found) := Choose(c, w, ts);
            if found.Some? then
              FirstInRow(c, w, ts, i) && found == Some(ts[i]) && w' == w.(clock := RowMoment(w, ts, i + 1))
            else RowRefuses(c, w, ts, |ts|) && w' == w.(clock := RowMoment(w, ts, |ts|))
    decreases ts
  {
    i := 0;
    hide HoldsAt, Enabled, RowMoment;
    if ts == [] {
      RowMomentAt(w, ts, 0);
    } else {
      FirstOfRow(c, w, ts);
      var (w1, matches) := Enabled(c, w, ts[0]);
      if !matches {
        i := ChooseExactly(c, w1, ts[1..]);
        forall j | 0 <= j < |ts|
          ensures RowMoment(w1, ts[1..], j) == RowMoment(w, ts, j + 1)
        {
          RowMomentNext(w, w1, ts, j);
        }
        RefusesNext(c, w, w1, ts, if Choose(c, w1, ts[1..]).1.Some? then i else |ts| - 1);
        i := i + 1;
      }
    }
  }

  lemma RowMomentAt(w: World, ts: seq<Transition>, i: nat)
    requires i <= |ts|
    ensures i == 0 ==> RowMoment(w, ts, i) == w.clock
  {
    assert ts[..0] == [];
  }

  lemma FirstOfRow(c: Context, w: World, ts: seq<Transition>)
    requires ts != []
    ensures RowMoment(w, ts, 0) == w.clock
    ensures Enabled(c, w, ts[0]) == (w.(clock := RowMoment(w, ts, 1)), HoldsAt(c, ts[0], w.clock))
  {
    assert ts[..0] == [] && ts[..1] == [ts[0]] && [ts[0]][1..] == [];
    assert RowReadings([]) == 0;
    assert RowReadings([ts[0]]) == if ts[0].guard.Some? then 1 else 0;
  }

  lemma RowMomentNext(w: World, w1: World, ts: seq<Transition>, j: nat)
    requires j < |ts| && w1 == w.(clock := RowMoment(w, ts, 1))
    ensures RowMoment(w1, ts[1..], j) == RowMoment(w, ts, j + 1)
  {
    assert ts[..j + 1][0] == ts[0] && ts[..j + 1][1..] == ts[1..][..j];
    assert ts[..1] == [ts[0]] && [ts[0]][1..] == [];
    assert RowReadings([]) == 0;
  }

  lemma RefusesNext(c: Context, w: World, w1: World, ts: seq<Transition>, i: nat)
    requires ts != [] && i < |ts| && !HoldsAt(c, ts[0], RowMoment(w, ts, 0))
    requires forall j :: 0 <= j < |ts| ==> RowMoment(w1, ts[1..], j) == RowMoment(w, ts, j + 1)
    ensures RowRefuses(c, w1, ts[1..], i) ==> RowRefuses(c, w, ts, i + 1)
  {
    hide HoldsAt, RowMoment;
    if RowRefuses(c, w1, ts[1..], i) {
      forall j | 0 <= j < i + 1
        ensures !HoldsAt(c, ts[j], RowMoment(w, ts, j))
      {
        if j > 0 {
          assert ts[j] == ts[1..][j - 1];
          assert RowMoment(w1, ts[1..], j - 1) == RowMoment(w, ts, j);
        }
      }
    }
  }
}
