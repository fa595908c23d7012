/** Handling an event does what the walk up the hierarchy decides. */
module Selection {
  import opened Options
  import opened Paths
  import opened Models
  import opened EventQueue
  import opened Semantics
  import opened Configuration
  import opened DispatchTables
  import opened RunToCompletion

  /** Guards that do not change their mind while one event is being handled. */
  ghost predicate Steady(c: Context) {
    forall g, n: nat :: c.env.guard(g, c.event, n) == c.env.guard(g, c.event, 0)
  }

  function ValuationOf(c: Context): Valuation {
    (t: Transition) => t.guard.None? || c.env.guard(t.guard.value, c.event, 0)
  }

  lemma {:induction false} ChooseIsFirst(c: Context, w: World, ts: seq<Transition>)
    requires Steady(c)
    ensures Choose(c, w, ts).1 == FirstOf(ts, ValuationOf(c))
    decreases ts
  {
    if ts != [] {
      ChooseIsFirst(c, Enabled(c, w, ts[0]).0, ts[1..]);
    }
  }

  /** The two machines differ in the clock at most. */
  predicate OnlyTicked(before: Machine, after: Machine) {
    after == before.(world := before.world.(clock := after.world.clock))
  }

  /** `after` is where firing `t` from `s` leads, once some guards have been evaluated. */
  predicate Fired(c: Context, fuel: nat, s: Machine, t: Transition, after: Machine, ticked: nat) {
    var step := Fire(c, fuel, s.world.(clock := ticked), s.state, t);
    step.Ran? && step.at == Some(after.state) && step.world == after.world
  }

  /** Firing `t` from `s`, once some guards have been evaluated, returns nothing. */
  predicate Missed(c: Context, fuel: nat, s: Machine, t: Transition, ticked: nat) {
    var step := Fire(c, fuel, s.world.(clock := ticked), s.state, t);
    step.Ran? && step.at.None?
  }

  lemma TryRowSelects(c: Context, fuel: nat, s: Machine, ts: seq<Transition>)
    requires Steady(c)
    ensures var a := TryRow(c, fuel, s, ts);
            var t := FirstOf(ts, ValuationOf(c));
            a.Tried? ==>
              && (t.None? ==> a.taken.None? && OnlyTicked(s, a.machine))
              && (a.taken.Some? ==> a.taken == t && exists n :: Fired(c, fuel, s, t.value, a.machine, n))
              && (a.taken.None? && t.Some? ==> exists n :: Missed(c, fuel, s, t.value, n))
  {
    hide Fire;
    ChooseIsFirst(c, s.world, ts);
    ChooseFacts(c, s.world, ts);
    var (w, t) := Choose(c, s.world, ts);
    if t.Some? && TryRow(c, fuel, s, ts).Tried? {
      var after := TryRow(c, fuel, s, ts).machine;
      assert Fired(c, fuel, s, t.value, after, w.clock) || Missed(c, fuel, s, t.value, w.clock);
    }
  }

  lemma FiredFromTicked(c: Context, fuel: nat, s: Machine, ticked: Machine, t: Transition, after: Machine, n: nat)
    requires OnlyTicked(s, ticked)
    ensures Fired(c, fuel, ticked, t, after, n) == Fired(c, fuel, s, t, after, n)
    ensures Missed(c, fuel, ticked, t, n) == Missed(c, fuel, s, t, n)
  {
    hide Fire;
  }

  /** What handling an event must have done, given the walk's decision. */
  ghost predicate Obeys(c: Context, fuel: nat, s: Machine, d: Decision, h: Outcome) {
    match h
    case Stuck => true
    case Handled(after, taken, owner) =>
      match d
      case Take(t) => taken == Some(t) && owner.None? && exists n :: Fired(c, fuel, s, t, after, n)
      case Defer(o) => taken.None? && owner == Some(o) && OnlyTicked(s, after)
      case Ignore => taken.None? && owner.None? && OnlyTicked(s, after)
  }

  /** The transition the walk takes is fired and returns nothing. */
  ghost predicate Misses(c: Context, fuel: nat, s: Machine, d: Decision) {
    d.Take? && exists n :: Missed(c, fuel, s, d.t, n)
  }

  /** For every model, machine, event and guard valuation, `ProcessEvent` fires the transition the
      walk takes, defers to the state the walk defers to, or does nothing, unless that transition
      returns nothing when fired. */
  lemma ProcessEventFollowsWalk(c: Context, fuel: nat, s: Machine)
    requires Steady(c)
    ensures var d := WalkDecision(c.model, s.state, c.event.name, ValuationOf(c));
            Obeys(c, fuel, s, d, ProcessEvent(c, fuel, s)) || Misses(c, fuel, s, d)
  {
    hide TryRow, Row, WithOwner, TableOwner, Fired, Missed;
    var m, q, e, enabled := c.model, s.state, c.event.name, ValuationOf(c);
    var owner := TableOwner(m, q, q, e);
    DeferOwnerIsInnermost(m, q, e);
    RowIsSearch(m, q, q, e, owner, enabled);
    RowIsSearch(m, q, q, ANY_EVENT, owner, enabled);
    TryRowSelects(c, fuel, s, Candidates(m, q, e, owner));
    var specific := TryRow(c, fuel, s, Candidates(m, q, e, owner));
    if specific.Tried? && Search(m, q, q, e, owner, enabled).None? && e != ANY_EVENT {
      TryRowSelects(c, fuel, specific.machine, Candidates(m, q, ANY_EVENT, owner));
      var any := TryRow(c, fuel, specific.machine, Candidates(m, q, ANY_EVENT, owner));
      var t := Search(m, q, q, ANY_EVENT, owner, enabled);
      if any.Tried? && t.Some? {
        forall n: nat
          ensures Fired(c, fuel, specific.machine, t.value, any.machine, n)
               == Fired(c, fuel, s, t.value, any.machine, n)
          ensures Missed(c, fuel, specific.machine, t.value, n) == Missed(c, fuel, s, t.value, n)
        {
          FiredFromTicked(c, fuel, s, specific.machine, t.value, any.machine, n);
        }
      }
    }
  }

  lemma {:induction false} FirstOfMembers(ts: seq<Transition>, enabled: Valuation)
    ensures FirstOf(ts, enabled).Some? ==> FirstOf(ts, enabled).value in ts
    decreases ts
  {
    if ts != [] {
      FirstOfMembers(ts[1..], enabled);
    }
  }

  /** Where every transition lands, from rest, the transition never returns nothing. */
  lemma SettledFollowsWalk(c: Context, fuel: nat, s: Machine)
    requires WellFormed(c.model) && Steady(c) && Settled(c.model, s)
    ensures Obeys(c, fuel, s, WalkDecision(c.model, s.state, c.event.name, ValuationOf(c)), ProcessEvent(c, fuel, s))
  {
    hide TryRow, Row, WithOwner, TableOwner, Obeys, ProcessEvent, Settled, Live, WellFormed;
    var m, q, e, enabled := c.model, s.state, c.event.name, ValuationOf(c);
    var d, owner := WalkDecision(m, q, e, enabled), TableOwner(m, q, q, e);
    ProcessEventFollowsWalk(c, fuel, s);
    if d.Take? {
      DeferOwnerIsInnermost(m, q, e);
      RowIsSearch(m, q, q, e, owner, enabled);
      RowIsSearch(m, q, q, ANY_EVENT, owner, enabled);
      FirstOfMembers(Candidates(m, q, e, owner), enabled);
      FirstOfMembers(Candidates(m, q, ANY_EVENT, owner), enabled);
      CandidateHits(c, fuel, s, d.t, e, owner);
      CandidateHits(c, fuel, s, d.t, ANY_EVENT, owner);
    }
  }

  lemma CandidateHits(c: Context, fuel: nat, s: Machine, t: Transition, e: string, owner: Option<Path>)
    requires WellFormed(c.model) && Settled(c.model, s)
    ensures t in Candidates(c.model, s.state, e, owner) ==> forall n :: !Missed(c, fuel, s, t, n)
  {
    hide Fire, Candidates, Lawful, RecordsOf, Open, ActiveChain;
    CandidatesLive(c.model, s.state, e, owner);
    if t in Candidates(c.model, s.state, e, owner) {
      forall n: nat
        ensures !Missed(c, fuel, s, t, n)
      {
        FireArrives(c, fuel, s.world.(clock := n), s.state, t);
      }
    }
  }

  // ----- deferring without trying the guards -----

  /** Some transition handles the event, or every event, at or below its deferral owner, and is
      enabled. */
  ghost predicate Overtaken(m: Model, q: Path, e: string, owner: Path, enabled: Valuation) {
    exists u, t :: Overtakes(m, q, e, owner, enabled, u, t)
  }

  predicate Overtakes(m: Model, q: Path, e: string, owner: Path, enabled: Valuation, u: Path, t: Transition) {
    && t in UsableAt(m, q, u)
    && ((Visited(m, q, u, e) && Eligible(m, t, e, Some(owner), enabled))
        || (Visited(m, q, u, ANY_EVENT) && Eligible(m, t, ANY_EVENT, Some(owner), enabled)))
  }

  lemma {:induction false} VisitedHandles(m: Model, q: Path, v: Path, u: Path, e: string, t: Transition, owner: Path)
    requires |m.root| == 1 && AtOrAbove(m.root, v) && Visited(m, v, u, e)
    requires t in UsableAt(m, q, u) && e in t.events && t.guard.None? && HandlesAtOrBelow(t, owner, m.root)
    ensures DispatchTables.Handled(m, q, v, e, owner)
    decreases |v|
  {
    hide UsableAt, HandlesAtOrBelow;
    if u != v {
      assert |u| < |v| by {
        UpOne(u, v);
      }
      assert v[..|v|] == v && !Defers(m, v, e) && v != m.root;
      VisitedUpOne(m, v, u, e);
      VisitedHandles(m, q, Dir(v), u, e, t, owner);
    }
  }

  lemma SearchFinds(m: Model, q: Path, e: string, owner: Option<Path>, enabled: Valuation)
    requires |m.root| == 1 && AtOrAbove(m.root, q)
    ensures Search(m, q, q, e, owner, enabled).Some? <==>
            exists u, t :: Visited(m, q, u, e) && t in UsableAt(m, q, u) && Eligible(m, t, e, owner, enabled)
  {
    hide UsableAt, Eligible, Search, Visited;
    InnermostEligibleWins(m, q, q, e, owner, enabled);
    var found := Search(m, q, q, e, owner, enabled);
    if found.Some? {
      var u :| Visited(m, q, u, e) && found == FirstEligible(m, UsableAt(m, q, u), e, owner, enabled);
      FirstEligibleFacts(m, UsableAt(m, q, u), e, owner, enabled);
    }
  }

  /** An event other than the dispatched one is deferred without trying any guard. That differs
      from handling it exactly when some transition overtakes the deferral, and a transition that
      does so for the event itself has a guard. */
  lemma QuickDeferralDiffers(m: Model, currentId: string, s: Machine, popped: Event, enabled: Valuation)
    requires Nested(m) && s.state in m.vertices && QuickOwner(m, currentId, s, popped).Some?
    ensures var (q, e, owner) := (s.state, popped.name, QuickOwner(m, currentId, s, popped).value);
            && (WalkDecision(m, q, e, enabled) == Defer(owner) <==> !Overtaken(m, q, e, owner, enabled))
            && forall u, t ::
                 (Visited(m, q, u, e) && t in UsableAt(m, q, u) && Eligible(m, t, e, Some(owner), enabled)) ==>
                 t.guard.Some?
  {
    var q, e, owner := s.state, popped.name, QuickOwner(m, currentId, s, popped).value;
    assert Owned(m, q);
    hide UsableAt, Eligible, Search, Visited, TableOwner, DispatchTables.Handled, Nested;
    DeferOwnerIsInnermost(m, q, e);
    SearchFinds(m, q, e, Some(owner), enabled);
    SearchFinds(m, q, ANY_EVENT, Some(owner), enabled);
    OvertakenByEither(m, q, e, owner, enabled);
    forall u, t | Visited(m, q, u, e) && t in UsableAt(m, q, u) && Eligible(m, t, e, Some(owner), enabled)
      ensures t.guard.Some?
    {
      EligibleIsGuarded(m, q, u, e, t, owner, enabled);
    }
  }

  lemma OvertakenByEither(m: Model, q: Path, e: string, owner: Path, enabled: Valuation)
    ensures Overtaken(m, q, e, owner, enabled) <==>
            || (exists u, t :: Visited(m, q, u, e) && t in UsableAt(m, q, u) && Eligible(m, t, e, Some(owner), enabled))
            || (exists u, t :: Visited(m, q, u, ANY_EVENT) && t in UsableAt(m, q, u)
                               && Eligible(m, t, ANY_EVENT, Some(owner), enabled))
  {
    hide UsableAt, Eligible, Visited;
    if u, t :| Visited(m, q, u, e) && t in UsableAt(m, q, u) && Eligible(m, t, e, Some(owner), enabled) {
      assert Overtakes(m, q, e, owner, enabled, u, t);
    } else if u, t :| Visited(m, q, u, ANY_EVENT) && t in UsableAt(m, q, u)
                      && Eligible(m, t, ANY_EVENT, Some(owner), enabled) {
      assert Overtakes(m, q, e, owner, enabled, u, t);
    }
  }

  lemma EligibleIsGuarded(m: Model, q: Path, u: Path, e: string, t: Transition, owner: Path, enabled: Valuation)
    requires |m.root| == 1 && AtOrAbove(m.root, q) && !DispatchTables.Handled(m, q, q, e, owner)
    requires Visited(m, q, u, e) && t in UsableAt(m, q, u) && Eligible(m, t, e, Some(owner), enabled)
    ensures t.guard.Some?
  {
    hide UsableAt, Visited, DispatchTables.Handled, HandlesAtOrBelow;
    if t.guard.None? {
      VisitedHandles(m, q, q, u, e, t, owner);
    }
  }
}
